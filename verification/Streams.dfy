/** A buffered reader over a pipe that delivers its bytes in chunks of any size. */
module Streams {
  const NUL: char := '\0'

  /** Where `delim` first stands, or the length. */
  function Find(data: string, delim: char): (n: nat)
    ensures n <= |data| && (n < |data| ==> data[n] == delim)
    ensures forall k | 0 <= k < n :: data[k] != delim
  {
    if data == "" || data[0] == delim then 0 else Find(data[1..], delim) + 1
  }

  lemma FindUnique(data: string, delim: char, n: nat)
    requires n <= |data| && (n < |data| ==> data[n] == delim) && forall k | 0 <= k < n :: data[k] != delim
    ensures Find(data, delim) == n
  {
    var m := Find(data, delim);
    assert m < |data| ==> data[m] == delim;
  }

  function Flat(chunks: seq<string>): string {
    if chunks == [] then "" else chunks[0] + Flat(chunks[1..])
  }

  class ByteReader {
    var buffer: string
    var chunks: seq<string>

    ghost function Rest(): string
      reads this
    {
      buffer + Flat(chunks)
    }

    constructor (chunks: seq<string>)
      ensures Rest() == Flat(chunks)
    {
      buffer, this.chunks := "", chunks;
    }

    /** `ReadString`: up to and including the delimiter, or all there is at the end of the stream. */
    method ReadString(delim: char) returns (text: string, eof: bool)
      modifies this
      ensures var data := old(Rest()); var n := Find(data, delim);
        && eof == (n == |data|)
        && text == (if n < |data| then data[..n + 1] else data)
        && Rest() == (if n < |data| then data[n + 1..] else "")
    {
      ghost var data := Rest();
      while true
        invariant Rest() == data
        decreases |chunks|
      {
        var n := Find(buffer, delim);
        if n < |buffer| {
          FindUnique(data, delim, n);
          text, eof := buffer[..n + 1], false;
          assert data[..n + 1] == buffer[..n + 1];
          assert data[n + 1..] == buffer[n + 1..] + Flat(chunks);
          buffer := buffer[n + 1..];
          return;
        }
        if chunks == [] {
          assert data == buffer;
          text, eof := buffer, true;
          buffer := "";
          return;
        }
        assert buffer + Flat(chunks) == (buffer + chunks[0]) + Flat(chunks[1..]);
        buffer, chunks := buffer + chunks[0], chunks[1..];
      }
    }
  }
}
