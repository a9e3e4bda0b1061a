/** Strict UTF-8 well-formedness (the syntax of section 4 of RFC 3629), which is
    exactly when Python's `bytes.decode()` with its default strict UTF-8 codec
    returns instead of raising `UnicodeDecodeError`. The model keeps log bodies
    as bytes; what it needs from decoding is only whether it succeeds. */
module Utf8 {
  import opened Bytes

  predicate IsTail(b: byte) { 0x80 <= b <= 0xBF }

  /** Length of the well-formed encoded character at the front of `s`, or 0
      when `s` does not start with one. */
  function LeadLength(s: Chunk): (n: nat)
    ensures n <= 4 && n <= |s|
  {
    if |s| == 0 then 0
    else if s[0] <= 0x7F then 1
    else if 0xC2 <= s[0] <= 0xDF then
      if |s| >= 2 && IsTail(s[1]) then 2 else 0
    else if s[0] == 0xE0 then
      if |s| >= 3 && 0xA0 <= s[1] <= 0xBF && IsTail(s[2]) then 3 else 0
    else if 0xE1 <= s[0] <= 0xEC || 0xEE <= s[0] <= 0xEF then
      if |s| >= 3 && IsTail(s[1]) && IsTail(s[2]) then 3 else 0
    else if s[0] == 0xED then
      if |s| >= 3 && 0x80 <= s[1] <= 0x9F && IsTail(s[2]) then 3 else 0
    else if s[0] == 0xF0 then
      if |s| >= 4 && 0x90 <= s[1] <= 0xBF && IsTail(s[2]) && IsTail(s[3]) then 4 else 0
    else if 0xF1 <= s[0] <= 0xF3 then
      if |s| >= 4 && IsTail(s[1]) && IsTail(s[2]) && IsTail(s[3]) then 4 else 0
    else if s[0] == 0xF4 then
      if |s| >= 4 && 0x80 <= s[1] <= 0x8F && IsTail(s[2]) && IsTail(s[3]) then 4 else 0
    else 0
  }

  /** `s.decode()` returns (rather than raises) exactly when `s` is a sequence of
      well-formed encoded characters. */
  predicate WellFormed(s: Chunk)
    decreases |s|
  {
    s == [] || (LeadLength(s) > 0 && WellFormed(s[LeadLength(s)..]))
  }

  /** The character at the front only depends on its own bytes. */
  lemma LeadLengthExtends(s: Chunk, t: Chunk)
    requires LeadLength(s) > 0
    ensures LeadLength(s + t) == LeadLength(s)
  {
    var u := s + t;
    assert u[0] == s[0];
    assert |s| >= 2 ==> u[1] == s[1];
    assert |s| >= 3 ==> u[2] == s[2];
    assert |s| >= 4 ==> u[3] == s[3];
  }

  /** Text that decodes, followed by text that decodes, decodes. */
  lemma {:induction false} WellFormedConcat(s: Chunk, t: Chunk)
    requires WellFormed(s) && WellFormed(t)
    ensures WellFormed(s + t)
    decreases |s|
  {
    if s == [] {
      assert s + t == t;
    } else {
      var n := LeadLength(s);
      LeadLengthExtends(s, t);
      assert (s + t)[n..] == s[n..] + t;
      WellFormedConcat(s[n..], t);
    }
  }

  /** Hence the join of chunks that each decode also decodes. */
  lemma {:induction false} WellFormedJoin(chunks: seq<Chunk>)
    requires forall i :: 0 <= i < |chunks| ==> WellFormed(chunks[i])
    ensures WellFormed(Join(chunks))
  {
    if chunks != [] {
      WellFormedJoin(chunks[1..]);
      WellFormedConcat(chunks[0], Join(chunks[1..]));
    }
  }

  /** ASCII text always decodes. */
  lemma {:induction false} AsciiWellFormed(s: Chunk)
    requires forall i :: 0 <= i < |s| ==> s[i] <= 0x7F
    ensures WellFormed(s)
  {
    if s != [] {
      assert LeadLength(s) == 1;
      AsciiWellFormed(s[1..]);
    }
  }

  /** The converse of WellFormedJoin fails: "é" (bytes C3 A9) split into two
      chunks decodes as a whole but neither chunk decodes on its own. */
  lemma SplitCharacter()
    ensures WellFormed([0xC3, 0xA9])
    ensures !WellFormed([0xC3]) && !WellFormed([0xA9])
  {
    var s: Chunk := [0xC3, 0xA9];
    assert LeadLength(s) == 2;
    assert s[2..] == [];
  }
}
