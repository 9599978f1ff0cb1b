/** The parts of `std::string` and of the "C" locale classification the validators use. */
module Text {
  import opened Wrappers

  predicate StartsWith(s: string, prefix: string) { |prefix| <= |s| && s[..|prefix|] == prefix }
  predicate EndsWith(s: string, suffix: string) { |suffix| <= |s| && s[|s| - |suffix|..] == suffix }

  predicate IsLower(c: char) { 'a' <= c <= 'z' }
  predicate IsUpper(c: char) { 'A' <= c <= 'Z' }
  predicate IsDigit(c: char) { '0' <= c <= '9' }
  predicate IsAlnum(c: char) { IsLower(c) || IsUpper(c) || IsDigit(c) }
  predicate IsControl(c: char) { c as int < 0x20 || c as int == 0x7f }

  predicate At(s: string, pattern: string, i: nat) { i + |pattern| <= |s| && s[i..i + |pattern|] == pattern }

  lemma AtChar(s: string, pattern: string, i: nat, j: nat)
    requires j < |pattern|
    ensures At(s, pattern, i) ==> s[i + j] == pattern[j]
  {
    if At(s, pattern, i) { assert s[i..i + |pattern|][j] == s[i + j]; }
  }

  lemma AtShift(head: string, rest: string, pattern: string, i: nat)
    ensures At(head + rest, pattern, |head| + i) <==> At(rest, pattern, i)
  {
    if i + |pattern| <= |rest| {
      assert (head + rest)[|head| + i..|head| + i + |pattern|] == rest[i..i + |pattern|];
    }
  }

  /** `s.find(pattern, from)`: the first occurrence at or after `from`. */
  function Find(s: string, pattern: string, from: nat): (r: Option<nat>)
    ensures r.Some? ==> from <= r.value && At(s, pattern, r.value)
                        && forall i :: from <= i < r.value ==> !At(s, pattern, i)
    ensures r.None? ==> forall i :: from <= i ==> !At(s, pattern, i)
    decreases |s| - from
  {
    if from + |pattern| > |s| then None
    else if At(s, pattern, from) then Some(from)
    else if from == |s| then None
    else Find(s, pattern, from + 1)
  }

  /** A search is decided by where the pattern occurs. */
  lemma FindIs(s: string, pattern: string, from: nat, at: nat)
    requires from <= at && At(s, pattern, at)
    requires forall i :: from <= i < at ==> !At(s, pattern, i)
    ensures Find(s, pattern, from) == Some(at)
  {}

  /** `s.find_first_of(chars) != npos`. */
  predicate ContainsAnyOf(s: string, chars: string) { exists i :: 0 <= i < |s| && s[i] in chars }

  /** `std::tolower`, character by character. */
  function Lower(s: string): string {
    if s == "" then "" else [if IsUpper(s[0]) then ((s[0] as int) + 32) as char else s[0]] + Lower(s[1..])
  }
}
