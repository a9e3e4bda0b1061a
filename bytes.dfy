/** Byte strings as the middleware handles them: a response body arrives as a
    sequence of chunks and is reassembled with `b"".join(...)`. */
module Bytes {

  newtype byte = x: int | 0 <= x < 0x100

  /** One `bytes` value pulled from a body iterator. */
  type Chunk = seq<byte>

  /** `b"".join(chunks)`: the chunks laid end to end, in order. */
  function Join(chunks: seq<Chunk>): Chunk
  {
    if chunks == [] then [] else chunks[0] + Join(chunks[1..])
  }

  /** Every byte of the text, as long as the text is plain ASCII. */
  function Ascii(s: string): (r: Chunk)
    requires forall i :: 0 <= i < |s| ==> s[i] < 128 as char
    ensures |r| == |s|
    ensures forall i :: 0 <= i < |s| ==> r[i] as int == s[i] as int
  {
    if s == [] then [] else [s[0] as int as byte] + Ascii(s[1..])
  }
}
