/** Base64url without padding, as src/oauth_pkce.cpp streams it through a 32-bit accumulator. */
module Base64Url {
  import opened Wrappers
  import opened Text

  type byte = x: int | 0 <= x < 256
  type sextet = x: int | 0 <= x < 64

  // In pieces: the verifier finds a character of a short literal directly, of a long one not.
  const UPPER: string := "ABCDEFGHIJKLM" + "NOPQRSTUVWXYZ"
  const LOWER: string := "abcdefghijklm" + "nopqrstuvwxyz"
  const DIGITS: string := "0123456789"
  const ALPHABET: string := UPPER + LOWER + DIGITS + "-_"

  /** Section 5 of RFC 4648, table 2. */
  function Digit(v: sextet): char {
    if v < 26 then ('A' as int + v) as char
    else if v < 52 then ('a' as int + v - 26) as char
    else if v < 62 then ('0' as int + v - 52) as char
    else if v == 62 then '-' else '_'
  }

  // The four sextets of three bytes, first to last.
  function First(a: byte): sextet { a / 4 }
  function Second(a: byte, b: byte): sextet { a % 4 * 16 + b / 16 }
  function Third(b: byte, c: byte): sextet { b % 16 * 4 + c / 64 }
  function Fourth(c: byte): sextet { c % 64 }

  /** Three bytes are four digits; one or two left over are two or three, with zero bits after. */
  function Encode(t: seq<byte>): string {
    if t == [] then ""
    else if |t| == 1 then [Digit(First(t[0])), Digit(Second(t[0], 0))]
    else if |t| == 2 then [Digit(First(t[0])), Digit(Second(t[0], t[1])), Digit(Third(t[1], 0))]
    else
      [Digit(First(t[0])), Digit(Second(t[0], t[1])), Digit(Third(t[1], t[2])), Digit(Fourth(t[2]))] + Encode(t[3..])
  }

  /** The byte at `i`, and zero past the end. */
  function ByteAt(t: seq<byte>, i: nat): byte { if i < |t| then t[i] else 0 }

  lemma {:induction false} EncodeLength(t: seq<byte>)
    ensures |Encode(t)| == (4 * |t| + 2) / 3
  {
    if |t| >= 3 { EncodeLength(t[3..]); }
  }

  /** The digits of group number `q`. */
  lemma {:induction false} EncodeGroup(t: seq<byte>, q: nat)
    requires 3 * q < |t|
    ensures var a, b, c := t[3 * q], ByteAt(t, 3 * q + 1), ByteAt(t, 3 * q + 2);
            && |Encode(t)| >= 4 * q + 2
            && Encode(t)[4 * q] == Digit(First(a)) && Encode(t)[4 * q + 1] == Digit(Second(a, b))
            && (3 * q + 1 < |t| ==> |Encode(t)| >= 4 * q + 3 && Encode(t)[4 * q + 2] == Digit(Third(b, c)))
            && (3 * q + 2 < |t| ==> |Encode(t)| >= 4 * q + 4 && Encode(t)[4 * q + 3] == Digit(Fourth(c)))
    decreases q
  {
    if q > 0 { EncodeGroup(t[3..], q - 1); }
  }

  // ---------------------------------------------------------------- the encoder

  const TWO_32: int := 0x1_0000_0000

  /** `1 << bits`, for the shifts that occur. */
  function Power(bits: nat): (p: nat)
    requires bits <= 6
    ensures p > 0
  {
    if bits == 0 then 1 else if bits == 1 then 2 else if bits == 2 then 4 else if bits == 3 then 8
    else if bits == 4 then 16 else if bits == 5 then 32 else 64
  }

  /** The low half of the accumulator holds the last two bytes of the input. */
  predicate Holds(accumulator: nat, t: seq<byte>) {
    accumulator % 65536 == (if |t| < 2 then 0 else (t[|t| - 2] as int) * 256) + if t == [] then 0 else t[|t| - 1]
  }

  lemma Div4(x: nat, q: nat, r: nat)
    requires x == 4 * q + r && r < 4
    ensures x / 4 == q && x % 4 == r
  {}

  lemma Div16(x: nat, q: nat, r: nat)
    requires x == 16 * q + r && r < 16
    ensures x / 16 == q && x % 16 == r
  {}

  lemma Div64(x: nat, q: nat, r: nat)
    requires x == 64 * q + r && r < 64
    ensures x / 64 == q && x % 64 == r
  {}

  // The accumulator is 65536 * h + 256 * prev + last; each shift brings up one digit.
  lemma ShiftedBy2(h: nat, prev: byte, last: byte)
    ensures (65536 * h + 256 * prev + last) / 4 % 64 == First(last)
  {
    var u := last / 4;
    Div4(65536 * h + 256 * prev + last, 16384 * h + 64 * prev + u, last % 4);
    Div64(16384 * h + 64 * prev + u, 256 * h + prev, u);
  }

  lemma ShiftedBy4(h: nat, prev: byte, last: byte)
    ensures (65536 * h + 256 * prev + last) / 16 % 64 == Second(prev, last)
  {
    var u := last / 16;
    Div16(65536 * h + 256 * prev + last, 4096 * h + 16 * prev + u, last % 16);
    Div64(4096 * h + 16 * prev + u, 64 * h + prev / 4, prev % 4 * 16 + u);
  }

  lemma ShiftedBy6(h: nat, prev: byte, last: byte)
    ensures (65536 * h + 256 * prev + last) / 64 % 64 == Third(prev, last)
  {
    var u := last / 64;
    Div64(65536 * h + 256 * prev + last, 1024 * h + 4 * prev + u, last % 64);
    Div64(1024 * h + 4 * prev + u, 16 * h + prev / 16, prev % 16 * 4 + u);
  }

  lemma ShiftedBy0(h: nat, prev: byte, last: byte)
    ensures (65536 * h + 256 * prev + last) % 64 == Fourth(last)
  {
    Div64(65536 * h + 256 * prev + last, 1024 * h + 4 * prev + last / 64, last % 64);
  }

  /** Which digit of which group comes next. */
  lemma Position(n: nat, bits: nat, size: nat)
    requires 6 * (n + 1) + bits == 8 * size && bits <= 6
    ensures var q := n / 4;
            || (bits == 2 && n == 4 * q && size == 3 * q + 1)
            || (bits == 4 && n == 4 * q + 1 && size == 3 * q + 2)
            || (bits == 6 && n == 4 * q + 2 && size == 3 * q + 3)
            || (bits == 0 && n == 4 * q + 3 && size == 3 * q + 3)
  {}

  lemma LastPosition(n: nat, bits: nat, size: nat)
    requires 6 * n + bits == 8 * size && 0 < bits < 6
    ensures var q := n / 4;
            || (bits == 2 && n == 4 * q + 1 && size == 3 * q + 1)
            || (bits == 4 && n == 4 * q + 2 && size == 3 * q + 2)
  {}

  lemma Bytes(x: nat, high: nat, low: nat)
    requires x == 256 * high + low && low < 256
    ensures x / 256 == high
  {}

  lemma LowByte(accumulator: nat, t: seq<byte>)
    requires Holds(accumulator, t) && t != []
    ensures accumulator == 256 * (accumulator / 256) + t[|t| - 1]
  {
    var high, prev, last := accumulator / 65536, if |t| < 2 then 0 else t[|t| - 2] as int, t[|t| - 1] as int;
    Bytes(accumulator, 256 * high + prev, last);
  }

  lemma Wrapped(x: nat, k: nat, r: nat)
    requires x == 64 * k + r && r < 64
    ensures x % TWO_32 % 64 == r
  {
    var w := x / TWO_32;
    assert x % TWO_32 == 64 * (k - w * 0x400_0000) + r;
  }

  lemma ShiftedLeft(accumulator: nat, h: nat, last: byte)
    requires accumulator == 256 * h + last
    ensures accumulator * 16 % TWO_32 % 64 == Second(last, 0)
    ensures accumulator * 4 % TWO_32 % 64 == Third(last, 0)
  {
    Wrapped(accumulator * 16, 64 * h + last / 4, last % 4 * 16);
    Wrapped(accumulator * 4, 16 * h + last / 16, last % 16 * 4);
  }

  /** `(accumulator << 8) | b` in 32 bits: the top byte is lost. */
  function Absorb(accumulator: nat, b: byte): (r: nat)
    ensures r < TWO_32
  {
    accumulator % 0x100_0000 * 256 + b
  }

  lemma Mod65536(x: nat, q: int, r: nat)
    requires x == 65536 * q + r && r < 65536
    ensures x % 65536 == r
  {}

  /** Losing it loses nothing that is still to be read. */
  lemma Absorbed(accumulator: nat, t: seq<byte>, b: byte)
    requires Holds(accumulator, t)
    ensures Holds(Absorb(accumulator, b), t + [b])
  {
    var last: nat := if t == [] then 0 else t[|t| - 1];
    if t == [] { Bytes(accumulator, 256 * (accumulator / 65536), 0); } else { LowByte(accumulator, t); }
    var h, w := accumulator / 256, accumulator / 0x100_0000;
    Mod65536(Absorb(accumulator, b), h - 65536 * w, 256 * last + b);
  }

  lemma UpperDigits(v: nat)
    requires v < 26
    ensures UPPER[v] == ('A' as int + v) as char && LOWER[v] == ('a' as int + v) as char
  {}

  lemma AlphabetDigits(v: sextet)
    ensures ALPHABET[v] == Digit(v)
  {
    if v < 26 { UpperDigits(v); } else if v < 52 { UpperDigits(v - 26); }
  }

  /** The sextet at the bottom of the shifted accumulator. */
  function Yield(accumulator: nat, bits: nat): sextet
    requires bits <= 6
  {
    accumulator / Power(bits) % 64
  }

  /** The sextet made of the bits left over and of zeros. */
  function Remainder(accumulator: nat, bits: nat): sextet
    requires bits <= 6
  {
    accumulator * Power(6 - bits) % TWO_32 % 64
  }

  lemma Parts(accumulator: nat, t: seq<byte>) returns (h: nat, prev: byte)
    requires Holds(accumulator, t) && t != []
    ensures accumulator == 65536 * h + 256 * prev + t[|t| - 1] && (|t| >= 2 ==> prev == t[|t| - 2])
  {
    h, prev := accumulator / 65536, if |t| < 2 then 0 else t[|t| - 2];
  }

  /** What the accumulator yields are the sextets of the group it is in. */
  lemma Yields(accumulator: nat, t: seq<byte>, bits: nat)
    requires Holds(accumulator, t) && t != [] && bits <= 6
    ensures bits == 0 ==> Yield(accumulator, bits) == Fourth(t[|t| - 1])
    ensures bits == 2 ==> Yield(accumulator, bits) == First(t[|t| - 1])
    ensures bits == 4 && |t| >= 2 ==> Yield(accumulator, bits) == Second(t[|t| - 2], t[|t| - 1])
    ensures bits == 6 && |t| >= 2 ==> Yield(accumulator, bits) == Third(t[|t| - 2], t[|t| - 1])
  {
    var last := t[|t| - 1];
    var h, prev := Parts(accumulator, t);
    if bits == 2 { ShiftedBy2(h, prev, last); }
    else if bits == 4 { ShiftedBy4(h, prev, last); }
    else if bits == 6 { ShiftedBy6(h, prev, last); }
    else { ShiftedBy0(h, prev, last); }
  }

  /** What the accumulator yields is the next digit, although it has long since wrapped. */
  lemma NextDigit(t: seq<byte>, n: nat, bits: nat, accumulator: nat)
    requires 6 * (n + 1) + bits == 8 * |t| && bits <= 6 && Holds(accumulator, t)
    ensures n < |Encode(t)| && Encode(t)[n] == Digit(Yield(accumulator, bits))
  {
    Position(n, bits, |t|);
    EncodeGroup(t, n / 4);
    Yields(accumulator, t, bits);
  }

  /** The bits left over, with zero bits after them, are the last digit. */
  lemma LastDigit(t: seq<byte>, n: nat, bits: nat, accumulator: nat)
    requires 6 * n + bits == 8 * |t| && 0 < bits < 6 && Holds(accumulator, t)
    ensures |Encode(t)| == n + 1 && Encode(t)[n] == Digit(Remainder(accumulator, bits))
  {
    EncodeLength(t);
    LastPosition(n, bits, |t|);
    EncodeGroup(t, n / 4);
    LowByte(accumulator, t);
    ShiftedLeft(accumulator, accumulator / 256, t[|t| - 1]);
  }

  /** What was encoded stays when a byte is added. */
  lemma {:induction false} EncodeGrows(t: seq<byte>, b: byte, n: nat)
    requires 6 * n <= 8 * |t|
    ensures n <= |Encode(t)| && n <= |Encode(t + [b])| && Encode(t)[..n] == Encode(t + [b])[..n]
    decreases |t|
  {
    if |t| >= 3 {
      assert (t + [b])[3..] == t[3..] + [b];
      if n >= 4 { EncodeGrows(t[3..], b, n - 4); }
    }
  }

  /** `output` is the beginning of the encoding. */
  ghost predicate Begins(output: string, t: seq<byte>) { |output| <= |Encode(t)| && output == Encode(t)[..|output|] }

  lemma BeginsOn(output: string, t: seq<byte>, bits: nat, accumulator: nat)
    requires Begins(output, t) && 6 * (|output| + 1) + bits == 8 * |t| && bits <= 6 && Holds(accumulator, t)
    ensures Begins(output + [ALPHABET[Yield(accumulator, bits)]], t)
  {
    NextDigit(t, |output|, bits, accumulator);
    AlphabetDigits(Yield(accumulator, bits));
  }

  /** The inner loop: emits the digits that are complete. */
  method EmitDigits(ghost t: seq<byte>, accumulator: nat, pending: nat, before: string) returns (bits: nat, output: string)
    requires Holds(accumulator, t) && Begins(before, t) && 6 * |before| + pending == 8 * |t| && pending <= 13
    ensures bits < 6 && 6 * |output| + bits == 8 * |t| && Begins(output, t)
  {
    bits, output := pending, before;
    while bits >= 6
      invariant bits <= 13 && 6 * |output| + bits == 8 * |t| && Begins(output, t)
    {
      bits := bits - 6;
      BeginsOn(output, t, bits, accumulator);
      output := output + [ALPHABET[Yield(accumulator, bits)]];
    }
  }

  /** The streaming encoder computes the encoding by groups. */
  method Base64Url(input: seq<byte>) returns (output: string)
    ensures output == Encode(input)
  {
    output := "";
    var accumulator, bits := 0, 0;
    for i := 0 to |input|
      invariant 0 <= bits < 6 && 0 <= accumulator < TWO_32 && Holds(accumulator, input[..i])
      invariant 6 * |output| + bits == 8 * i && Begins(output, input[..i])
    {
      ghost var t := input[..i + 1];
      assert t == input[..i] + [input[i]];
      EncodeGrows(input[..i], input[i], |output|);
      Absorbed(accumulator, input[..i], input[i]);
      accumulator := Absorb(accumulator, input[i]);
      bits, output := EmitDigits(t, accumulator, bits + 8, output);
    }
    assert input[..|input|] == input;
    if bits > 0 {
      LastDigit(input, |output|, bits, accumulator);
      AlphabetDigits(Remainder(accumulator, bits));
      output := output + [ALPHABET[Remainder(accumulator, bits)]];
    } else {
      EncodeLength(input);
    }
  }

  // ---------------------------------------------------------------- the decoder

  function DigitValue(c: char): Option<sextet> {
    if IsUpper(c) then Some(c as int - 'A' as int)
    else if IsLower(c) then Some(c as int - 'a' as int + 26)
    else if IsDigit(c) then Some(c as int - '0' as int + 52)
    else if c == '-' then Some(62) else if c == '_' then Some(63) else None
  }

  lemma DigitInverse(v: sextet, c: char)
    ensures DigitValue(Digit(v)) == Some(v)
    ensures DigitValue(c).Some? ==> Digit(DigitValue(c).value) == c
  {}

  // The three bytes of four sextets.
  function High(a: sextet, b: sextet): byte { a * 4 + b / 16 }
  function Middle(b: sextet, c: sextet): byte { b % 16 * 16 + c / 4 }
  function Low(c: sextet, d: sextet): byte { c % 4 * 64 + d }

  /** The strict decoder: no digit outside the alphabet, no stray bits at the end. */
  function Decode(s: string): Option<seq<byte>> {
    if s == "" then Some([])
    else if |s| == 1 then None
    else
      var a, b := DigitValue(s[0]), DigitValue(s[1]);
      if a.None? || b.None? then None
      else if |s| == 2 then
        if b.value % 16 == 0 then Some([High(a.value, b.value)]) else None
      else
        var c := DigitValue(s[2]);
        if c.None? then None
        else if |s| == 3 then
          if c.value % 4 == 0 then Some([High(a.value, b.value), Middle(b.value, c.value)]) else None
        else
          var d, rest := DigitValue(s[3]), Decode(s[4..]);
          if d.None? || rest.None? then None
          else Some([High(a.value, b.value), Middle(b.value, c.value), Low(c.value, d.value)] + rest.value)
  }

  lemma Regroup(a: byte, b: byte, c: byte)
    ensures High(First(a), Second(a, b)) == a
    ensures Middle(Second(a, b), Third(b, c)) == b
    ensures Low(Third(b, c), Fourth(c)) == c
    ensures Second(a, 0) % 16 == 0 && Third(b, 0) % 4 == 0
  {
    Div16(a % 4 * 16, a % 4, 0);
    Div16(a % 4 * 16 + b / 16, a % 4, b / 16);
    Div4(b % 16 * 4 + c / 64, b % 16, c / 64);
    Div4(b % 16 * 4, b % 16, 0);
  }

  lemma DigitsInverse(a: byte, b: byte, c: byte)
    ensures DigitValue(Digit(First(a))) == Some(First(a)) && DigitValue(Digit(Second(a, b))) == Some(Second(a, b))
    ensures DigitValue(Digit(Third(b, c))) == Some(Third(b, c)) && DigitValue(Digit(Fourth(c))) == Some(Fourth(c))
  {
    DigitInverse(First(a), ' ');
    DigitInverse(Second(a, b), ' ');
    DigitInverse(Third(b, c), ' ');
    DigitInverse(Fourth(c), ' ');
  }

  /** A full group decodes on its own. */
  lemma DecodeGroup(a: byte, b: byte, c: byte, rest: string)
    requires Decode(rest).Some?
    ensures Decode(Encode([a, b, c]) + rest) == Some([a, b, c] + Decode(rest).value)
  {
    Regroup(a, b, c);
    DigitsInverse(a, b, c);
    assert (Encode([a, b, c]) + rest)[4..] == rest;
  }

  lemma RegroupOne(a: byte)
    ensures High(First(a), Second(a, 0)) == a && Second(a, 0) % 16 == 0
  {
    Div16(a % 4 * 16, a % 4, 0);
  }

  lemma DecodeOne(a: byte)
    ensures Decode(Encode([a])) == Some([a])
  {
    RegroupOne(a);
    DigitInverse(First(a), ' ');
    DigitInverse(Second(a, 0), ' ');
  }

  lemma DecodeTwo(a: byte, b: byte)
    ensures Decode(Encode([a, b])) == Some([a, b])
  {
    Regroup(a, b, 0);
    DigitsInverse(a, b, 0);
  }

  lemma {:induction false} DecodeEncode(t: seq<byte>)
    ensures Decode(Encode(t)) == Some(t)
  {
    if |t| == 1 {
      DecodeOne(t[0]);
      assert t == [t[0]];
    } else if |t| == 2 {
      DecodeTwo(t[0], t[1]);
      assert t == [t[0], t[1]];
    } else if |t| >= 3 {
      DecodeEncode(t[3..]);
      DecodeGroup(t[0], t[1], t[2], Encode(t[3..]));
      assert Encode(t) == Encode([t[0], t[1], t[2]]) + Encode(t[3..]);
      assert t == [t[0], t[1], t[2]] + t[3..];
    }
  }

  lemma Resplit(a: sextet, b: sextet, c: sextet, d: sextet)
    ensures First(High(a, b)) == a && Second(High(a, b), Middle(b, c)) == b
    ensures Third(Middle(b, c), Low(c, d)) == c && Fourth(Low(c, d)) == d
    ensures c % 4 == 0 ==> Third(Middle(b, c), 0) == c
  {
    Div4(a * 4 + b / 16, a, b / 16);
    Div16(b % 16 * 16 + c / 4, b % 16, c / 4);
    Div64(c % 4 * 64 + d, c % 4, d);
  }

  lemma ResplitTwo(a: sextet, b: sextet)
    requires b % 16 == 0
    ensures First(High(a, b)) == a && Second(High(a, b), 0) == b
  {
    Div4(a * 4 + b / 16, a, b / 16);
  }

  /** Groups that decode encode back. */
  lemma EncodeGroupOf(s: string)
    requires |s| >= 4 && Decode(s).Some? && Encode(Decode(s[4..]).value) == s[4..]
    ensures Encode(Decode(s).value) == s
  {
    var a, b, c, d := DigitValue(s[0]).value, DigitValue(s[1]).value, DigitValue(s[2]).value, DigitValue(s[3]).value;
    Resplit(a, b, c, d);
    DigitInverse(a, s[0]);
    DigitInverse(b, s[1]);
    DigitInverse(c, s[2]);
    DigitInverse(d, s[3]);
    assert Decode(s).value[3..] == Decode(s[4..]).value;
    assert s == [s[0], s[1], s[2], s[3]] + s[4..];
  }

  lemma EncodeTwo(s: string)
    requires |s| == 2 && Decode(s).Some?
    ensures Encode(Decode(s).value) == s
  {
    var a, b := DigitValue(s[0]).value, DigitValue(s[1]).value;
    ResplitTwo(a, b);
    DigitInverse(a, s[0]);
    DigitInverse(b, s[1]);
    assert s == [s[0], s[1]];
  }

  lemma EncodeThree(s: string)
    requires |s| == 3 && Decode(s).Some?
    ensures Encode(Decode(s).value) == s
  {
    var a, b, c := DigitValue(s[0]).value, DigitValue(s[1]).value, DigitValue(s[2]).value;
    Resplit(a, b, c, c);
    DigitInverse(a, s[0]);
    DigitInverse(b, s[1]);
    DigitInverse(c, s[2]);
    assert s == [s[0], s[1], s[2]];
  }

  /** Only encodings decode. */
  lemma {:induction false} EncodeDecode(s: string)
    requires Decode(s).Some?
    ensures Encode(Decode(s).value) == s
  {
    if |s| >= 4 {
      EncodeDecode(s[4..]);
      EncodeGroupOf(s);
    } else if |s| == 3 {
      EncodeThree(s);
    } else if |s| == 2 {
      EncodeTwo(s);
    }
  }

  // ---------------------------------------------------------------- public values

  predicate UrlChar(c: char) { IsAlnum(c) || c == '-' || c == '_' }
  predicate UrlValue(s: string, minimum: nat, maximum: nat) {
    minimum <= |s| <= maximum && forall i :: 0 <= i < |s| ==> UrlChar(s[i])
  }

  method IsBase64UrlValue(value: string, minimum: nat, maximum: nat) returns (r: bool)
    ensures r <==> UrlValue(value, minimum, maximum)
  {
    if |value| < minimum || |value| > maximum { return false; }
    for i := 0 to |value|
      invariant forall j :: 0 <= j < i ==> UrlChar(value[j])
    {
      if !(IsUpper(value[i]) || IsLower(value[i]) || IsDigit(value[i]) || value[i] == '-' || value[i] == '_') { return false; }
    }
    return true;
  }

  lemma {:induction false} EncodeUrlSafe(t: seq<byte>)
    ensures UrlValue(Encode(t), 0, |Encode(t)|)
  {
    if |t| >= 3 { EncodeUrlSafe(t[3..]); }
  }

  lemma EncodedValue(t: seq<byte>)
    ensures |Encode(t)| == (4 * |t| + 2) / 3 && UrlValue(Encode(t), 0, |Encode(t)|) && Decode(Encode(t)) == Some(t)
  {
    EncodeLength(t);
    EncodeUrlSafe(t);
    DecodeEncode(t);
  }

  /** `GeneratePkceVerifier`: 32 random bytes make a verifier every later check accepts, and
      different bytes make a different one. */
  method GeneratePkceVerifier(entropy: seq<byte>) returns (verifier: string)
    requires |entropy| == 32
    ensures |verifier| == 43 && UrlValue(verifier, 43, 128) && Decode(verifier) == Some(entropy)
  {
    verifier := Base64Url(entropy);
    EncodedValue(entropy);
  }

  /** `GenerateOAuthState` and `GenerateOpaqueId`. */
  method GenerateOpaqueId(entropy: seq<byte>) returns (id: string)
    requires |entropy| == 16
    ensures |id| == 22 && UrlValue(id, 1, 128) && Decode(id) == Some(entropy)
  {
    id := Base64Url(entropy);
    EncodedValue(entropy);
  }

  /** A digest of 32 bytes. */
  type Digest = d: seq<byte> | |d| == 32 witness seq(32, i => 0)

  /** `CreateS256Challenge`: refuses exactly the malformed verifiers. */
  method CreateS256Challenge(verifier: string, sha256: string -> Digest) returns (r: Option<string>)
    ensures r.Some? <==> UrlValue(verifier, 43, 128)
    ensures r.Some? ==> |r.value| == 43 && UrlValue(r.value, 1, 128) && Decode(r.value) == Some(sha256(verifier))
  {
    var valid := IsBase64UrlValue(verifier, 43, 128);
    if !valid { return None; }
    var challenge := Base64Url(sha256(verifier));
    EncodedValue(sha256(verifier));
    return Some(challenge);
  }
}
