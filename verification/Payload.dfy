/**
 * The payload loops of the two endpoints: writing a chunk to disk in partial writes, the
 * receiver's loop up to the declared size, and the sender's loop over its source file.
 */
module Payload {
  import opened Prelude

  lemma {:induction false} FlattenSnoc(chunks: seq<Bytes>, chunk: Bytes)
    ensures Flatten(chunks + [chunk]) == Flatten(chunks) + chunk
  {
    if chunks == [] {
      assert [] + [chunk] == [chunk] && [chunk][1..] == [];
      assert chunk + [] == chunk;
    } else {
      FlattenSnoc(chunks[1..], chunk);
      assert (chunks + [chunk])[1..] == chunks[1..] + [chunk];
    }
  }

  lemma {:induction false} FlattenSplit(chunks: seq<Bytes>, n: nat)
    requires n <= |chunks|
    ensures Flatten(chunks) == Flatten(chunks[..n]) + Flatten(chunks[n..])
    decreases |chunks| - n
  {
    if n == |chunks| {
      assert chunks[..n] == chunks && chunks[n..] == [];
    } else {
      FlattenSplit(chunks, n + 1);
      FlattenSnoc(chunks[..n], chunks[n]);
      assert chunks[..n + 1] == chunks[..n] + [chunks[n]];
      assert chunks[n..][1..] == chunks[n + 1..];
    }
  }

  datatype Received = Complete | Beyond | Incomplete | Stalled

  /** The first `n` chunks are exactly the declared payload. */
  predicate EndsAt(chunks: seq<Bytes>, size: nat, n: nat) {
    1 <= n <= |chunks| && |Flatten(chunks[..n])| == size
  }

  /** Some write reports that it has written nothing. */
  ghost predicate MakesNoProgress(counts: seq<int>) { exists c <- counts :: c <= 0 }

  class PartFile {
    var contents: Bytes

    constructor ()
      ensures contents == []
    {
      contents := [];
    }

    /**
     * writeAll. `counts` are what the successive writes report to have written, at most
     * what was asked for; once they are used up, a write takes everything.
     */
    method WriteAll(chunk: Bytes, counts: seq<int>) returns (ok: bool)
      modifies this
      ensures ok ==> contents == old(contents) + chunk
      ensures !ok ==> exists k: nat :: k < |chunk| && contents == old(contents) + chunk[..k]
      ensures !ok ==> MakesNoProgress(counts)
    {
      var offset, i := 0, 0;
      while offset < |chunk|
        invariant offset <= |chunk| && contents == old(contents) + chunk[..offset]
        decreases |chunk| - offset
      {
        var left := |chunk| - offset;
        var bytesWritten := if i < |counts| && counts[i] < left then counts[i] else left;
        if bytesWritten <= 0 {
          assert counts[i] in counts;
          return false;
        }
        contents := contents + chunk[offset..offset + bytesWritten];
        assert chunk[..offset + bytesWritten] == chunk[..offset] + chunk[offset..offset + bytesWritten];
        offset := offset + bytesWritten;
        i := i + 1;
      }
      assert chunk[..offset] == chunk;
      return true;
    }

    /**
     * The receiving loop: first what followed the metadata line, then the socket's chunks
     * until the declared size is reached or the stream ends. `counts` lists, chunk by chunk,
     * what the writes of that chunk report.
     */
    method ReceivePayload(size: nat, remainder: Bytes, chunks: seq<Bytes>, counts: seq<seq<int>>)
      returns (result: Received)
      requires contents == []
      modifies this
      ensures result == Stalled ==> exists k | 0 <= k < |counts| :: MakesNoProgress(counts[k])
      ensures result != Stalled ==> contents <= Flatten([remainder] + chunks) && |contents| <= size
      ensures result == Complete ==>
                && |contents| == size <= |Flatten([remainder] + chunks)|
                && contents == Flatten([remainder] + chunks)[..size]
                && exists n: nat :: EndsAt([remainder] + chunks, size, n)
      ensures result == Incomplete ==>
                |Flatten([remainder] + chunks)| < size && contents == Flatten([remainder] + chunks)
      ensures result == Beyond ==>
                |Flatten([remainder] + chunks)| > size && forall n: nat :: !EndsAt([remainder] + chunks, size, n)
    {
      ghost var all := [remainder] + chunks;
      var next := remainder;
      var i := 0;
      while true
        invariant i <= |chunks| && next == all[i]
        invariant contents == Flatten(all[..i]) && |contents| <= size && (i > 0 ==> |contents| < size)
        invariant forall n: nat | n <= i :: !EndsAt(all, size, n)
        decreases |chunks| - i
      {
        if |next| > size - |contents| {
          NeverEnds(all, size, i);
          FlattenSplit(all, i);
          return Beyond;
        }
        var before := contents;
        var ok := WriteAll(next, if i < |counts| then counts[i] else []);
        if !ok {
          assert i < |counts| && MakesNoProgress(counts[i]);
          return Stalled;
        }
        FlattenSnoc(all[..i], next);
        assert all[..i + 1] == all[..i] + [next];
        FlattenSplit(all, i + 1);
        if |contents| == size {
          assert EndsAt(all, size, i + 1);
          return Complete;
        }
        if i == |chunks| {
          assert all[..i + 1] == all;
          return Incomplete;
        }
        next := chunks[i];
        i := i + 1;
      }
    }
  }

  /** A chunk that runs past the size leaves no boundary at it. */
  lemma NeverEnds(all: seq<Bytes>, size: nat, i: nat)
    requires i < |all| && |Flatten(all[..i])| <= size < |Flatten(all[..i])| + |all[i]|
    requires forall n: nat | n <= i :: !EndsAt(all, size, n)
    ensures |Flatten(all)| > size && forall n: nat :: !EndsAt(all, size, n)
  {
    FlattenSnoc(all[..i], all[i]);
    assert all[..i + 1] == all[..i] + [all[i]];
    FlattenSplit(all, i + 1);
    forall n: nat ensures !EndsAt(all, size, n) {
      if i < n <= |all| {
        FlattenSplit(all[..n], i + 1);
        assert all[..n][..i + 1] == all[..i + 1];
      }
    }
  }

  /** A stream of exactly the declared size ends at its last chunk, whatever the chunks. */
  lemma ExactStreamEnds(chunks: seq<Bytes>, size: nat)
    requires chunks != [] && |Flatten(chunks)| == size
    ensures EndsAt(chunks, size, |chunks|)
  {
    assert chunks[..|chunks|] == chunks;
  }

  /**
   * The sending loop over the source as it is read. `wire` is what was written to the
   * socket; success means that the source was exactly the offered bytes.
   */
  method SendPayload(size: nat, sha256: string, sha: Bytes -> string, source: seq<Bytes>)
    returns (ok: bool, wire: Bytes)
    ensures ok <==> |Flatten(source)| == size && sha(Flatten(source)) == sha256
    ensures ok ==> wire == Flatten(source)
    ensures wire <= Flatten(source) && |wire| <= size
  {
    wire := [];
    var i := 0;
    while i < |source|
      invariant i <= |source| && wire == Flatten(source[..i]) && |wire| <= size
    {
      var chunk := source[i];
      FlattenSplit(source, i);
      FlattenSnoc(source[..i], chunk);
      assert source[..i + 1] == source[..i] + [chunk];
      FlattenSplit(source, i + 1);
      if |wire| + |chunk| > size {
        return false, wire;
      }
      wire := wire + chunk;
      i := i + 1;
    }
    assert source[..i] == source;
    ok := |wire| == size && sha(wire) == sha256;
  }
}
