/** Bounded capture of HTTP bodies: a preview and a payload, each the first bytes read. */
module Capture {

  type byte = n: nat | n < 256

  /** The first k elements, or all of them. */
  function First(s: seq<byte>, k: int): seq<byte>
  {
    if k <= 0 then [] else if |s| <= k then s else s[..k]
  }

  lemma FirstMore(s: seq<byte>, k: int, chunk: seq<byte>)
    ensures First(s + chunk, k) == First(s, k) + First(chunk, k - |First(s, k)|)
  {
  }

  class Body {
    const limit: int
    const payloadLimit: int
    var n: int
    var data: seq<byte>
    var payload: seq<byte>
    ghost var total: seq<byte>

    /** After any reads: the byte count, and the first bytes up to each limit. */
    ghost predicate Valid()
      reads this
    {
      n == |total| && data == First(total, limit) && payload == First(total, payloadLimit)
    }

    constructor (limit: int, payloadLimit: int)
      ensures Valid() && total == [] && this.limit == limit && this.payloadLimit == payloadLimit
    {
      this.limit, this.payloadLimit := limit, payloadLimit;
      n, data, payload, total := 0, [], [], [];
    }

    /** add: count everything, keep what still fits. */
    method Add(chunk: seq<byte>)
      requires Valid()
      modifies this
      ensures Valid() && total == old(total) + chunk
    {
      FirstMore(total, payloadLimit, chunk);
      FirstMore(total, limit, chunk);
      n := n + |chunk|;
      if |payload| < payloadLimit {
        var remaining := payloadLimit - |payload|;
        payload := payload + (if |chunk| > remaining then chunk[..remaining] else chunk);
      }
      if |data| < limit {
        var remaining := limit - |data|;
        data := data + (if |chunk| > remaining then chunk[..remaining] else chunk);
      }
      total := total + chunk;
    }

    /** A sequence of reads of any sizes. */
    method ReadAll(chunks: seq<seq<byte>>)
      requires Valid()
      modifies this
      ensures Valid() && total == old(total) + Flatten(chunks)
    {
      for i := 0 to |chunks|
        invariant Valid() && total == old(total) + Flatten(chunks[..i])
      {
        assert chunks[..i + 1][..i] == chunks[..i];
        if chunks[i] != [] { Add(chunks[i]); }
      }
      assert chunks[..|chunks|] == chunks;
    }

    /** The truncation flag of a spooled body says exactly whether bytes were lost. */
    method Truncated() returns (truncated: bool)
      requires Valid()
      ensures truncated <==> payload != total
    {
      truncated := n > |payload|;
      FirstIsWhole(total, payloadLimit);
    }
  }

  function Flatten(chunks: seq<seq<byte>>): seq<byte>
  {
    if chunks == [] then [] else Flatten(chunks[..|chunks| - 1]) + chunks[|chunks| - 1]
  }

  lemma FirstIsWhole(s: seq<byte>, k: int)
    ensures First(s, k) == s <==> |s| <= |First(s, k)|
  {
  }
}
