/** What the driver is sent for the chunks of a write, as `writeCharacteristic`
    is written and with a copy of the write object per chunk.

    As written every chunk request holds the caller's `dataAndOptions` object
    itself, and the loop overwrites its `value` with each piece in turn. The first
    request is sent during the loop, with the first piece; each later one is sent
    when the completion before it arrives, by which time the loop has left the
    last piece in the object. */
module ChunkAliasing {
  import opened Wrappers
  import opened Gatt
  import opened DeviceSession
  import Chunking

  /** As written: once the loop is over, the caller's object holds the last
      piece (what `WriteCharacteristic` promises of a write that went through),
      and every chunk request resolves to that piece. Only the first request was
      sent before, on submission, with its own piece. */
  lemma AliasedChunksSendLastPiece(service: Uuid, characteristic: Uuid, opts: WriteOptions, v: seq<int>, timeout: int)
    requires opts.chunkSize.Some? && opts.chunkSize.value > 0 && |v| > 0
    requires opts.value.Array?
    requires opts.value.arr.elems == Chunking.Chunks(v, opts.chunkSize.value)[|Chunking.Chunks(v, opts.chunkSize.value)| - 1]
    ensures var pieces := Chunking.Chunks(v, opts.chunkSize.value);
      var requests := ChunkRequests(service, characteristic, opts, timeout, pieces, false);
      && |requests| == |pieces| > 0
      && forall j :: 0 <= j < |requests| ==>
           Resolve(requests[j].body) == Data(SentArray(pieces[|pieces| - 1]), opts.chunkSize, opts.extra)
  {
    var pieces := Chunking.Chunks(v, opts.chunkSize.value);
    Chunking.ChunksEmpty(v, opts.chunkSize.value);
    ChunkRequestsLength(service, characteristic, opts, timeout, pieces, false);
    forall j | 0 <= j < |pieces|
      ensures ChunkRequests(service, characteristic, opts, timeout, pieces, false)[j].body == Shared(opts)
    {
      ChunkRequestAt(service, characteristic, opts, timeout, pieces, false, j);
    }
  }

  /** The values the driver receives for a chunked write to an idle queue: the
      first piece on submission, then what each later request resolves to when
      it is dispatched. */
  function SentPieces(first: seq<int>, later: seq<Payload>): seq<seq<int>>
  {
    [first] + seq(|later|, j requires 0 <= j < |later| =>
                    if later[j].Data? && later[j].value.SentArray? then later[j].value.elems else [])
  }

  /** The write of `[1, 2, 3, 4, 5, 6]` in chunks of 2, as written: the driver
      receives `[1, 2]`, `[5, 6]`, `[5, 6]`, and `[3, 4]` is never sent. */
  lemma AliasedWriteLosesData(service: Uuid, characteristic: Uuid, opts: WriteOptions, timeout: int)
    requires opts.chunkSize == Some(2) && opts.value.Array? && opts.value.arr.elems == [5, 6]
    ensures Chunking.Chunks([1, 2, 3, 4, 5, 6], 2) == [[1, 2], [3, 4], [5, 6]]
    ensures |ChunkRequests(service, characteristic, opts, timeout, [[1, 2], [3, 4], [5, 6]], false)| == 3
    ensures var v := [1, 2, 3, 4, 5, 6];
      var pieces := Chunking.Chunks(v, 2);
      var requests := ChunkRequests(service, characteristic, opts, timeout, pieces, false);
      var sent := SentPieces(pieces[0], [Resolve(requests[1].body), Resolve(requests[2].body)]);
      && sent == [[1, 2], [5, 6], [5, 6]]
      && Chunking.Concat(sent) != v
  {
    var v := [1, 2, 3, 4, 5, 6];
    ChunksOfSix(v);
    AliasedChunksSendLastPiece(service, characteristic, opts, v, timeout);
    ChunkRequestsLength(service, characteristic, opts, timeout, [[1, 2], [3, 4], [5, 6]], false);
    var sent: seq<seq<int>> := [[1, 2], [5, 6], [5, 6]];
    assert Chunking.Concat(sent) == [1, 2] + ([5, 6] + ([5, 6] + []));
    assert Chunking.Concat(sent)[2] == 5;
  }

  lemma ChunksOfSix(v: seq<int>)
    requires v == [1, 2, 3, 4, 5, 6]
    ensures Chunking.Chunks(v, 2) == [[1, 2], [3, 4], [5, 6]]
  {
    assert v[..2] == [1, 2] && v[2..] == [3, 4, 5, 6];
    var w := v[2..];
    assert w[..2] == [3, 4] && w[2..] == [5, 6];
    assert Chunking.Chunks([5, 6], 2) == [[5, 6]];
  }

  /** With a copy per chunk each request carries its own piece, whatever the
      caller's object holds when it is dispatched, so the driver receives the
      pieces in order and they put together give the value. */
  lemma CopiedChunksSendEachPiece(service: Uuid, characteristic: Uuid, opts: WriteOptions, v: seq<int>, timeout: int)
    requires opts.chunkSize.Some? && opts.chunkSize.value > 0 && |v| > 0
    ensures var pieces := Chunking.Chunks(v, opts.chunkSize.value);
      var requests := ChunkRequests(service, characteristic, opts, timeout, pieces, true);
      && |requests| == |pieces| > 0
      && (forall j :: 0 <= j < |requests| ==>
            Resolve(requests[j].body) == Data(SentArray(pieces[j]), opts.chunkSize, opts.extra))
      && Chunking.Concat(pieces) == v
  {
    var size := opts.chunkSize.value;
    var pieces := Chunking.Chunks(v, size);
    Chunking.ChunksEmpty(v, size);
    Chunking.ChunksConcat(v, size);
    ChunkRequestsLength(service, characteristic, opts, timeout, pieces, true);
    var requests := ChunkRequests(service, characteristic, opts, timeout, pieces, true);
    forall j | 0 <= j < |pieces|
      ensures requests[j].body == Fixed(Data(SentArray(pieces[j]), opts.chunkSize, opts.extra))
    {
      ChunkRequestAt(service, characteristic, opts, timeout, pieces, true, j);
    }
  }
}
