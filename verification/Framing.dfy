/**
 * Line framing over a byte stream that arrives in arbitrary chunks: the relay's
 * `readHeader` and the endpoints' `SocketLineReader`.
 */
module Framing {
  import opened Prelude

  const NEWLINE: byte := 10

  /** The limit SocketLineReader puts on one response line. */
  const RESPONSE_LIMIT: nat := 64 * 1024

  /** Position of the first newline, or -1. */
  function IndexOfNewline(b: Bytes): (n: int)
    ensures -1 <= n < |b|
    ensures n == -1 <==> NEWLINE !in b
    ensures n >= 0 ==> b[n] == NEWLINE && NEWLINE !in b[..n]
  {
    if b == [] then -1
    else if b[0] == NEWLINE then 0
    else
      var rest := IndexOfNewline(b[1..]);
      if rest < 0 then -1 else rest + 1
  }

  lemma NewlineAt(b: Bytes, n: nat)
    requires n < |b| && b[n] == NEWLINE && NEWLINE !in b[..n]
    ensures IndexOfNewline(b) == n
  {
    var m := IndexOfNewline(b);
    forall k | 0 <= k < n ensures b[k] != NEWLINE { assert b[k] == b[..n][k]; }
    forall k | 0 <= k < m ensures b[k] != NEWLINE { assert b[k] == b[..m][k]; }
  }

  /** What a reader makes of the bytes it has buffered so far. */
  datatype Framed = Pending | TooLarge | Complete(header: Bytes, rest: Bytes)

  function Classify(b: Bytes, limit: nat): Framed {
    var n := IndexOfNewline(b);
    if n < 0 then
      if |b| > limit then TooLarge else Pending
    else if n > limit then TooLarge
    else Complete(b[..n], b[n + 1..])
  }

  /**
   * Exactly when each verdict is given: bytes without a newline are waited for up to the
   * limit; more than that without one are refused; else the first newline ends the line.
   */
  lemma VerdictIff(b: Bytes, limit: nat)
    ensures Classify(b, limit).Pending? <==> |b| <= limit && NEWLINE !in b
    ensures Classify(b, limit).TooLarge? <==> |b| > limit && NEWLINE !in b[..limit + 1]
    ensures Classify(b, limit).Complete? ==>
              var header := Classify(b, limit).header;
              && |header| <= limit && NEWLINE !in header && header + [NEWLINE] + Classify(b, limit).rest == b
  {
    var n := IndexOfNewline(b);
    if n >= 0 {
      assert b[n] in b && b[n] == NEWLINE;
      if n <= limit && |b| > limit { assert b[..limit + 1][n] in b[..limit + 1]; }
      if n > limit { assert b[..limit + 1] == b[..n][..limit + 1]; }
    } else if |b| > limit {
      assert forall k <- b[..limit + 1] :: k in b;
    }
  }

  /** A settled verdict never changes when more bytes follow; only the remainder grows. */
  lemma ClassifyExtends(b: Bytes, more: Bytes, limit: nat)
    ensures Classify(b, limit).TooLarge? ==> Classify(b + more, limit).TooLarge?
    ensures Classify(b, limit).Complete? ==>
              Classify(b + more, limit) == Complete(Classify(b, limit).header, Classify(b, limit).rest + more)
  {
    var n := IndexOfNewline(b);
    if n >= 0 {
      assert (b + more)[..n] == b[..n];
      NewlineAt(b + more, n);
      assert (b + more)[n + 1..] == b[n + 1..] + more;
    } else {
      forall k | 0 <= k < |b| ensures (b + more)[k] != NEWLINE { assert b[k] in b; }
    }
  }

  /** A line followed by anything is read back as that line and that remainder. */
  lemma ClassifyLine(line: Bytes, rest: Bytes, limit: nat)
    requires NEWLINE !in line
    ensures Classify(line + [NEWLINE] + rest, limit) ==
            if |line| > limit then TooLarge else Complete(line, rest)
  {
    var b := line + [NEWLINE] + rest;
    assert b[..|line|] == line;
    NewlineAt(b, |line|);
    assert b[|line| + 1..] == rest;
  }

  /** Bytes split at their first newline are the line, the newline and the remainder. */
  lemma CompleteSplits(b: Bytes, limit: nat)
    requires Classify(b, limit).Complete?
    ensures b == Classify(b, limit).header + [NEWLINE] + Classify(b, limit).rest
    ensures NEWLINE !in Classify(b, limit).header
  {
  }

  /**
   * The verdict of a reader fed the chunks one at a time until it settles, with the
   * chunks it never saw (they stay in the paused socket).
   */
  function Feed(buffered: Bytes, chunks: seq<Bytes>, limit: nat): (Framed, seq<Bytes>)
    decreases chunks
  {
    if chunks == [] then (Pending, [])
    else
      var verdict := Classify(buffered + chunks[0], limit);
      if verdict.Pending? then Feed(buffered + chunks[0], chunks[1..], limit)
      else (verdict, chunks[1..])
  }

  /** The verdict on a stream, with the remainder completed by what was never delivered. */
  function Settled(fed: (Framed, seq<Bytes>)): Framed {
    match fed.0
    case Complete(header, rest) => Complete(header, rest + Flatten(fed.1))
    case verdict => verdict
  }

  /** However a stream is cut, the reader's verdict is that on the whole stream. */
  lemma {:induction false} FeedSeesWholeStream(buffered: Bytes, chunks: seq<Bytes>, limit: nat)
    requires Classify(buffered, limit).Pending?
    ensures Settled(Feed(buffered, chunks, limit)) == Classify(buffered + Flatten(chunks), limit)
    decreases chunks
  {
    if chunks == [] {
      assert buffered + Flatten(chunks) == buffered;
    } else {
      var seen := buffered + chunks[0];
      var later := Flatten(chunks[1..]);
      assert buffered + Flatten(chunks) == seen + later;
      if Classify(seen, limit).Pending? {
        FeedSeesWholeStream(seen, chunks[1..], limit);
      } else {
        ClassifyExtends(seen, later, limit);
      }
    }
  }

  /** Two ways of cutting one stream give the same header, the same refusal, the same remainder. */
  lemma ChunkingIsIrrelevant(left: seq<Bytes>, right: seq<Bytes>, limit: nat)
    requires Flatten(left) == Flatten(right)
    ensures Settled(Feed([], left, limit)) == Settled(Feed([], right, limit))
  {
    FeedSeesWholeStream([], left, limit);
    FeedSeesWholeStream([], right, limit);
  }

  /** The listener that `readHeader` attaches to a relay socket. */
  class HeaderReader {
    const limit: nat
    var buffered: Bytes
    var settled: bool

    constructor (limit: nat)
      ensures this.limit == limit && buffered == [] && !settled
    {
      this.limit := limit;
      buffered := [];
      settled := false;
    }

    method OnData(chunk: Bytes) returns (verdict: Framed)
      requires !settled
      modifies this
      ensures buffered == old(buffered) + chunk
      ensures verdict == Classify(buffered, limit)
      ensures settled <==> !verdict.Pending?
    {
      buffered := buffered + chunk;
      var newline := IndexOfNewline(buffered);
      if newline < 0 {
        if |buffered| > limit {
          settled := true;
          return TooLarge;
        }
        return Pending;
      }
      settled := true;
      if newline > limit {
        return TooLarge;
      }
      return Complete(buffered[..newline], buffered[newline + 1..]);
    }
  }

  /**
   * Runs `readHeader` over a chunked stream: the header, the refusal and the remainder
   * are a function of the bytes alone.
   */
  method ReadHeader(chunks: seq<Bytes>, limit: nat) returns (verdict: Framed, unseen: seq<Bytes>)
    ensures Settled((verdict, unseen)) == Classify(Flatten(chunks), limit)
    ensures verdict.Pending? ==> unseen == []
  {
    var reader := new HeaderReader(limit);
    verdict, unseen := Pending, chunks;
    assert [] + Flatten(chunks) == Flatten(chunks);
    FeedSeesWholeStream([], chunks, limit);
    while unseen != [] && verdict.Pending?
      invariant verdict.Pending? ==>
                  !reader.settled && Feed(reader.buffered, unseen, limit) == Feed([], chunks, limit)
      invariant !verdict.Pending? ==> (verdict, unseen) == Feed([], chunks, limit)
      invariant reader.limit == limit
      decreases |unseen|
    {
      verdict := reader.OnData(unseen[0]);
      unseen := unseen[1..];
    }
  }

  /** What `readJson` reports before it parses. */
  datatype LineResult = Waiting | Oversize | GotLine(bytes: Bytes)

  /** The given lines, each followed by its newline. */
  function Unlines(lines: seq<Bytes>): Bytes {
    if lines == [] then [] else Unlines(lines[..|lines| - 1]) + lines[|lines| - 1] + [NEWLINE]
  }

  lemma UnlinesSnoc(lines: seq<Bytes>, line: Bytes, tail: Bytes)
    ensures Unlines(lines + [line]) + tail == Unlines(lines) + (line + [NEWLINE] + tail)
  {
    assert (lines + [line])[..|lines|] == lines;
  }

  /** The endpoints' line reader: its buffer outlives each line it returns. */
  class SocketLineReader {
    var buffer: Bytes

    constructor ()
      ensures buffer == []
    {
      buffer := [];
    }

    method TakeLine() returns (line: Option<Bytes>)
      modifies this
      ensures line.None? ==> NEWLINE !in buffer && buffer == old(buffer)
      ensures line.Some? ==> NEWLINE !in line.value && old(buffer) == line.value + [NEWLINE] + buffer
    {
      var newline := IndexOfNewline(buffer);
      if newline < 0 {
        return None;
      }
      line := Some(buffer[..newline]);
      buffer := buffer[newline + 1..];
    }

    method TakeRemainder() returns (value: Bytes)
      modifies this
      ensures value == old(buffer) && buffer == []
    {
      value := buffer;
      buffer := [];
    }

    /**
     * One `readJson` over the chunks still to come. The line is the first one of the
     * buffered bytes and everything that follows them, however that was cut; what is
     * left in the buffer and on the wire is exactly the rest of the stream. An oversize
     * line is refused as soon as anything arrives.
     */
    method ReadJson(chunks: seq<Bytes>) returns (result: LineResult, unseen: seq<Bytes>)
      modifies this
      ensures match Classify(old(buffer) + Flatten(chunks), RESPONSE_LIMIT)
              case Complete(header, rest) => result == GotLine(header) && buffer + Flatten(unseen) == rest
              case TooLarge => result == if chunks == [] && NEWLINE !in old(buffer) then Waiting else Oversize
              case Pending => result == Waiting && unseen == [] && buffer == old(buffer) + Flatten(chunks)
    {
      ghost var stream := buffer + Flatten(chunks);
      unseen := chunks;
      var existing := TakeLine();
      if existing.Some? {
        assert stream == existing.value + [NEWLINE] + (buffer + Flatten(chunks));
        ClassifyLine(existing.value, buffer + Flatten(chunks), RESPONSE_LIMIT);
        if |existing.value| > RESPONSE_LIMIT {
          return Oversize, unseen;
        }
        return GotLine(existing.value), unseen;
      }
      while unseen != []
        invariant NEWLINE !in buffer
        invariant buffer + Flatten(unseen) == stream
        invariant unseen == chunks || |buffer| <= RESPONSE_LIMIT
        invariant unseen == chunks ==> buffer == old(buffer)
        decreases |unseen|
      {
        ghost var later := Flatten(unseen[1..]);
        assert buffer + Flatten(unseen) == (buffer + unseen[0]) + later;
        buffer := buffer + unseen[0];
        unseen := unseen[1..];
        assert stream == buffer + later;
        ClassifyExtends(buffer, later, RESPONSE_LIMIT);
        var newline := IndexOfNewline(buffer);
        if newline < 0 {
          if |buffer| > RESPONSE_LIMIT {
            return Oversize, unseen;
          }
        } else if newline > RESPONSE_LIMIT {
          return Oversize, unseen;
        } else {
          var line := TakeLine();
          ClassifyLine(line.value, buffer, RESPONSE_LIMIT);
          return GotLine(line.value), unseen;
        }
      }
      assert stream == buffer;
      return Waiting, unseen;
    }

    /**
     * `count` successive reads: the lines, what stays buffered and what was never
     * delivered are together the original stream, so `takeRemainder` loses nothing.
     */
    method ReadJsonLines(count: nat, chunks: seq<Bytes>) returns (lines: seq<Bytes>, unseen: seq<Bytes>)
      modifies this
      ensures |lines| <= count
      ensures forall line <- lines :: NEWLINE !in line && |line| <= RESPONSE_LIMIT
      ensures |lines| == count ==> Unlines(lines) + (buffer + Flatten(unseen)) == old(buffer) + Flatten(chunks)
    {
      lines, unseen := [], chunks;
      while |lines| < count
        invariant |lines| <= count
        invariant forall line <- lines :: NEWLINE !in line && |line| <= RESPONSE_LIMIT
        invariant Unlines(lines) + (buffer + Flatten(unseen)) == old(buffer) + Flatten(chunks)
        decreases count - |lines|
      {
        ghost var stream := buffer + Flatten(unseen);
        var result;
        result, unseen := ReadJson(unseen);
        if !result.GotLine? {
          return lines, unseen;
        }
        CompleteSplits(stream, RESPONSE_LIMIT);
        UnlinesSnoc(lines, result.bytes, buffer + Flatten(unseen));
        lines := lines + [result.bytes];
      }
    }
  }
}
