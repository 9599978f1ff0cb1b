/** `ConstantTimeEquals` of src/oauth_pkce.cpp: a comparison that never leaves its loop early. */
module ConstantTime {

  /** Bitwise exclusive or of two `size_t` values. */
  function Xor(a: nat, b: nat): (r: nat)
    decreases a + b
  {
    if a == 0 && b == 0 then 0 else 2 * Xor(a / 2, b / 2) + (a % 2 + b % 2) % 2
  }

  /** Bitwise or of two `size_t` values. */
  function Or(a: nat, b: nat): (r: nat)
    decreases a + b
  {
    if a == 0 && b == 0 then 0
    else 2 * Or(a / 2, b / 2) + if a % 2 == 1 || b % 2 == 1 then 1 else 0
  }

  lemma {:induction false} XorZero(a: nat, b: nat)
    ensures Xor(a, b) == 0 <==> a == b
    decreases a + b
  {
    if a != 0 || b != 0 { XorZero(a / 2, b / 2); }
  }

  lemma {:induction false} OrZero(a: nat, b: nat)
    ensures Or(a, b) == 0 <==> a == 0 && b == 0
    decreases a + b
  {
    if a != 0 || b != 0 { OrZero(a / 2, b / 2); }
  }

  /** The byte at `i`, or 0 past the end. */
  function ByteAt(s: string, i: nat): nat {
    if i < |s| then s[i] as int else 0
  }

  method ConstantTimeEquals(left: string, right: string) returns (equal: bool)
    ensures equal <==> left == right
  {
    var difference := Xor(|left|, |right|);
    XorZero(|left|, |right|);
    var count := if |left| > |right| then |left| else |right|;
    for i := 0 to count
      invariant difference == 0 <==> |left| == |right| && left[..i] == right[..i]
    {
      var d := Xor(ByteAt(left, i), ByteAt(right, i));
      XorZero(ByteAt(left, i), ByteAt(right, i));
      OrZero(difference, d);
      if |left| == |right| {
        assert left[..i + 1] == left[..i] + [left[i]] && right[..i + 1] == right[..i] + [right[i]];
      }
      difference := Or(difference, d);
    }
    return difference == 0;
  }
}
