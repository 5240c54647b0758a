/** The last bytes of a server's output stream. */
module BoundedCapture {
  import opened Bytes

  const CAPTURE_LIMIT := 8192

  function Tail(s: bytes): bytes {
    if |s| <= CAPTURE_LIMIT then s else s[|s| - CAPTURE_LIMIT..]
  }

  lemma TailOfExtension(s: bytes, block: bytes)
    ensures Tail(Tail(s) + block) == Tail(s + block)
  {
    if |s| > CAPTURE_LIMIT {
      assert (Tail(s) + block)[|block|..] == (s + block)[|s| + |block| - CAPTURE_LIMIT..];
    }
  }

  /** What a sequence of reads delivers: everything before the first empty block. */
  function Delivered(blocks: seq<bytes>): bytes {
    if blocks == [] || blocks[0] == [] then [] else blocks[0] + Delivered(blocks[1..])
  }

  class Capture {
    var value: bytes
    ghost var stream: bytes

    ghost predicate Valid()
      reads this
    {
      value == Tail(stream)
    }

    constructor ()
      ensures Valid() && stream == []
    {
      value, stream := [], [];
    }

    /** `blocks` are the blocks the stream's successive reads return. */
    method Drain(blocks: seq<bytes>)
      requires Valid()
      modifies this
      ensures Valid() && stream == old(stream) + Delivered(blocks)
    {
      var rest := blocks;
      while true
        invariant Valid() && stream + Delivered(rest) == old(stream) + Delivered(blocks)
        decreases |rest|
      {
        var block := if rest == [] then [] else rest[0];
        if block == [] {
          return;
        }
        TailOfExtension(stream, block);
        value := value + block;
        if |value| > CAPTURE_LIMIT {
          value := value[|value| - CAPTURE_LIMIT..];
        }
        assert stream + Delivered(rest) == stream + block + Delivered(rest[1..]);
        stream := stream + block;
        rest := rest[1..];
      }
    }

    method Nonempty() returns (r: bool)
      requires Valid()
      ensures r <==> stream != []
    {
      r := value != [];
    }
  }
}
