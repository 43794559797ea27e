/** Bytes as the programs see them: integers in 0..256. */
module Bytes {
  type Byte = x: int | 0 <= x < 256
  type Data = seq<Byte>

  /** The chunks of a channel, joined in order. */
  function Concat(chunks: seq<Data>): Data {
    if |chunks| == 0 then [] else Concat(chunks[..|chunks| - 1]) + chunks[|chunks| - 1]
  }

  lemma ConcatAppend(chunks: seq<Data>, c: Data)
    ensures Concat(chunks + [c]) == Concat(chunks) + c
  {
    assert (chunks + [c])[..|chunks|] == chunks;
  }

  lemma {:induction false} ConcatHead(chunks: seq<Data>)
    requires |chunks| > 0
    ensures Concat(chunks) == chunks[0] + Concat(chunks[1..])
  {
    if |chunks| == 1 {
      assert chunks[..0] == [] && chunks[1..] == [];
    } else {
      var front, last := chunks[..|chunks| - 1], chunks[|chunks| - 1];
      ConcatHead(front);
      assert front[1..] == chunks[1..][..|chunks[1..]| - 1];
    }
  }
}
