/**
 * Object contents as the object store and Node's `Buffer` hold them, and the
 * stream-to-buffer loop that every reader of an object runs.
 */
module Bytes {

  type Byte = x: int | 0 <= x < 256
  type Bytes = seq<Byte>

  /** `Buffer.concat(chunks)`. */
  function Concat(chunks: seq<Bytes>): (r: Bytes)
    ensures |chunks| == 1 ==> r == chunks[0]
  {
    if chunks == [] then [] else chunks[0] + Concat(chunks[1..])
  }

  /** The chunks a readable object stream hands out, at most `size` bytes each.
      The chunk size is the store client's business; nothing in the model
      depends on its value. */
  function Chunks(b: Bytes, size: nat): (r: seq<Bytes>)
    requires size > 0
    ensures forall i :: 0 <= i < |r| ==> 0 < |r[i]| <= size
    decreases |b|
  {
    if b == [] then []
    else if |b| <= size then [b]
    else [b[..size]] + Chunks(b[size..], size)
  }

  /** Buffering a stream of an object reproduces the object exactly. */
  lemma {:induction false} ConcatChunks(b: Bytes, size: nat)
    requires size > 0
    ensures Concat(Chunks(b, size)) == b
    decreases |b|
  {
    if |b| > size {
      var r := Chunks(b, size);
      assert r[1..] == Chunks(b[size..], size);
      ConcatChunks(b[size..], size);
      assert b == b[..size] + b[size..];
    }
  }

  /** `for await (const chunk of stream) chunks.push(chunk)` followed by
      `Buffer.concat(chunks)`. */
  method ReadAll(stream: seq<Bytes>) returns (buffer: Bytes)
    ensures buffer == Concat(stream)
  {
    var chunks: seq<Bytes> := [];
    var i := 0;
    while i < |stream|
      invariant 0 <= i <= |stream|
      invariant chunks == stream[..i]
    {
      chunks := chunks + [stream[i]];
      i := i + 1;
    }
    assert chunks == stream;
    buffer := Concat(chunks);
  }
}
