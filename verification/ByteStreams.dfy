/** The two ends of a byte stream: what was written so far, and what is still to be read. */
module ByteStreams {
  import opened Bytes
  import opened Wrappers

  /** `read_exact`: the next `n` bytes, or nothing; at the end of the stream what was left is gone. */
  function Exactly(input: Data, n: nat): (Option<Data>, Data) {
    if |input| < n then (None, []) else (Some(input[..n]), input[n..])
  }

  lemma FrontFirst(front: Data, body: Data, rest: Data)
    ensures Exactly((front + body) + rest, |front|) == (Some(front), body + rest)
  {
    assert (front + body) + rest == front + (body + rest);
  }

  class Writer {
    var output: Data

    constructor ()
      ensures output == []
    {
      output := [];
    }

    method WriteAll(bytes: Data)
      modifies this
      ensures output == old(output) + bytes
    {
      output := output + bytes;
    }
  }

  class Reader {
    var input: Data

    constructor (bytes: Data)
      ensures input == bytes
    {
      input := bytes;
    }

    method ReadExact(n: nat) returns (r: Option<Data>)
      modifies this
      ensures (r, input) == Exactly(old(input), n)
      ensures if n <= |old(input)| then r == Some(old(input)[..n]) && input == old(input)[n..] else r == None && input == []
    {
      if |input| < n {
        input := [];
        return None;
      }
      r := Some(input[..n]);
      input := input[n..];
    }
  }
}
