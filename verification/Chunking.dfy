/** Splitting oversized tool results for the wire (codingagent/sse_chunk.go). */
module Chunking {
  import opened Wrappers
  import opened Seqs
  import opened Events

  const DEFAULT_MAX_SSE_DATA_LINE_BYTES := 64 * 1024
  const DEFAULT_SSE_CHUNK_CONTENT_BYTES := 48 * 1024
  const MIN_SSE_CHUNK_CONTENT_BYTES := 4096

  /** A chunk id is a printed UUID, so it is never empty. */
  type ChunkId = s: string | s != "" witness "u"

  /** The length of an event's JSON encoding. */
  type JsonLength = StreamEvent -> nat

  // ---------------------------------------------------------------- contents

  /** The content cut into pieces of `size` bytes; at least one piece, even when empty. */
  function Pieces(content: string, size: nat): (pieces: seq<string>)
    requires 0 < size
    ensures 0 < |pieces|
    decreases |content|
  {
    if |content| <= size then [content]
    else [content[..size]] + Pieces(content[size..], size)
  }

  function Join(pieces: seq<string>): string {
    if pieces == [] then "" else pieces[0] + Join(pieces[1..])
  }

  lemma {:induction false} JoinPieces(content: string, size: nat)
    requires 0 < size
    ensures Join(Pieces(content, size)) == content
    decreases |content|
  {
    if |content| <= size {
      assert Join([content]) == content + Join([]);
    } else {
      JoinPieces(content[size..], size);
      var rest := Pieces(content[size..], size);
      assert ([content[..size]] + rest)[1..] == rest;
      assert content == content[..size] + content[size..];
    }
  }

  lemma {:induction false} JoinSnoc(pieces: seq<string>, last: string)
    ensures Join(pieces + [last]) == Join(pieces) + last
  {
    if pieces == [] {
      assert [last][1..] == [];
    } else {
      assert (pieces + [last])[1..] == pieces[1..] + [last];
      JoinSnoc(pieces[1..], last);
    }
  }

  /** The number of pieces as the code computes it: a ceiling division, raised to one. */
  function ChunkTotal(length: nat, size: nat): (total: nat)
    requires 0 < size
  {
    var total := (length + size - 1) / size;
    if total == 0 then 1 else total
  }

  lemma {:induction false} ChunkTotalStep(length: nat, size: nat)
    requires 0 < size
    ensures length <= size ==> ChunkTotal(length, size) == 1
    ensures size < length ==> ChunkTotal(length, size) == 1 + ChunkTotal(length - size, size)
  {
    if length == 0 {
      assert (size - 1) / size == 0;
    } else if length <= size {
      assert (length + size - 1) / size == 1 by { DivUnique(length + size - 1, size, 1); }
    } else {
      var q := (length - size + size - 1) / size;
      DivUnique(length + size - 1, size, q + 1);
      DivAtLeastOne(length - size, size);
    }
  }

  lemma {:induction false} DivUnique(n: nat, d: nat, q: nat)
    requires 0 < d && q * d <= n < q * d + d
    ensures n / d == q
  {
    var k := n / d;
    assert k * d <= n < k * d + d;
    assert k < q ==> (k + 1) * d <= q * d;
    assert q < k ==> (q + 1) * d <= k * d;
  }

  lemma {:induction false} DivAtLeastOne(length: nat, size: nat)
    requires 0 < size && 0 < length
    ensures 1 <= (length + size - 1) / size
  {
    assert (length + size - 1) / size == 0 ==> length + size - 1 < size;
  }

  lemma {:induction false} SliceOfTail(content: string, size: nat, at: nat, end: nat)
    requires size <= |content| && at <= end <= |content| - size
    ensures content[size..][at..end] == content[at + size..end + size]
  {
  }

  lemma {:induction false} PieceCount(content: string, size: nat)
    requires 0 < size
    ensures |Pieces(content, size)| == ChunkTotal(|content|, size)
    decreases |content|
  {
    ChunkTotalStep(|content|, size);
    if size < |content| {
      PieceCount(content[size..], size);
    }
  }

  lemma {:induction false} TimesBefore(i: nat, size: nat)
    requires 0 < i
    ensures (i - 1) * size == i * size - size
  {
  }

  lemma {:induction false} PieceFrom(content: string, size: nat, i: nat, at: int)
    requires 0 < size && i < |Pieces(content, size)| && at == i * size
    ensures 0 <= at <= |content|
    ensures Pieces(content, size)[i] == content[at..if at + size > |content| then |content| else at + size]
    decreases |content|
  {
    if size < |content| && 0 < i {
      var tail := content[size..];
      TimesBefore(i, size);
      PieceFrom(tail, size, i - 1, at - size);
      SliceOfTail(content, size, at - size, if at > |tail| then |tail| else at);
    }
  }

  /** Piece `i` is the byte range the loop slices, and there are as many as it counts. */
  lemma {:induction false} PieceIsSlice(content: string, size: nat, i: nat)
    requires 0 < size
    ensures |Pieces(content, size)| == ChunkTotal(|content|, size)
    ensures i < |Pieces(content, size)| ==>
              && i * size <= |content|
              && Pieces(content, size)[i]
                 == content[i * size..if i * size + size > |content| then |content| else i * size + size]
  {
    PieceCount(content, size);
    if i < |Pieces(content, size)| {
      PieceFrom(content, size, i, i * size);
    }
  }

  // ---------------------------------------------------------------- events

  function PartEvent(ev: StreamEvent, pieces: seq<string>, chunkID: string, i: nat): StreamEvent
    requires i < |pieces|
  {
    Blank(ToolResultPart).(content := pieces[i], toolName := ev.toolName, chunkID := chunkID,
                           chunkIndex := i, chunkTotal := |pieces|)
  }

  function FinalEvent(ev: StreamEvent, chunkID: string): StreamEvent {
    Blank(ToolResult).(toolName := ev.toolName, chunkID := chunkID)
  }

  function PartEvents(ev: StreamEvent, size: nat, chunkID: string): (parts: seq<StreamEvent>)
    requires 0 < size
  {
    var pieces := Pieces(ev.content, size);
    seq(|pieces|, i requires 0 <= i < |pieces| => PartEvent(ev, pieces, chunkID, i))
  }

  function Chunked(ev: StreamEvent, size: nat, chunkID: string): seq<StreamEvent>
    requires 0 < size
  {
    PartEvents(ev, size, chunkID) + [FinalEvent(ev, chunkID)]
  }

  predicate Fits(wire: seq<StreamEvent>, limit: int, json: JsonLength) {
    forall i :: 0 <= i < |wire| ==> json(wire[i]) < limit
  }

  function Limit(maxLineBytes: int): int {
    if maxLineBytes <= 0 then DEFAULT_MAX_SSE_DATA_LINE_BYTES else maxLineBytes
  }

  datatype SplitError = CannotSplit

  /** The halving search; `ids(size)` is the UUID drawn for the attempt with that size. */
  function SplitFrom(ev: StreamEvent, size: nat, limit: int, json: JsonLength, ids: nat -> ChunkId)
    : Result<seq<StreamEvent>, SplitError>
    decreases size
  {
    if size < MIN_SSE_CHUNK_CONTENT_BYTES then Err(CannotSplit)
    else if Fits(Chunked(ev, size, ids(size)), limit, json) then Ok(Chunked(ev, size, ids(size)))
    else SplitFrom(ev, size / 2, limit, json, ids)
  }

  function Split(ev: StreamEvent, maxLineBytes: int, json: JsonLength, ids: nat -> ChunkId)
    : Result<seq<StreamEvent>, SplitError>
  {
    if ev.kind != ToolResult || json(ev) < Limit(maxLineBytes) then Ok([ev])
    else SplitFrom(ev, DEFAULT_SSE_CHUNK_CONTENT_BYTES, Limit(maxLineBytes), json, ids)
  }

  /** A successful split is the event itself, or its chunks for some size and chunk id, all of
      them under the limit. */
  lemma {:induction false} SplitFromShape(ev: StreamEvent, size: nat, limit: int, json: JsonLength, ids: nat -> ChunkId)
    returns (chosen: nat)
    requires SplitFrom(ev, size, limit, json, ids).Ok?
    ensures MIN_SSE_CHUNK_CONTENT_BYTES <= chosen <= size
    ensures SplitFrom(ev, size, limit, json, ids).value == Chunked(ev, chosen, ids(chosen))
    ensures Fits(Chunked(ev, chosen, ids(chosen)), limit, json)
    decreases size
  {
    if Fits(Chunked(ev, size, ids(size)), limit, json) {
      chosen := size;
    } else {
      chosen := SplitFromShape(ev, size / 2, limit, json, ids);
    }
  }

  /** Every payload of a split tool result is strictly under the limit, whichever way it went. */
  lemma {:induction false} SplitPayloadsUnderLimit(ev: StreamEvent, maxLineBytes: int, json: JsonLength,
                                                   ids: nat -> ChunkId)
    requires ev.kind == ToolResult
    requires Split(ev, maxLineBytes, json, ids).Ok?
    ensures forall e <- Split(ev, maxLineBytes, json, ids).value ::
              json(e) < if maxLineBytes <= 0 then DEFAULT_MAX_SSE_DATA_LINE_BYTES else maxLineBytes
  {
    if json(ev) >= Limit(maxLineBytes) {
      var chosen := SplitFromShape(ev, DEFAULT_SSE_CHUNK_CONTENT_BYTES, Limit(maxLineBytes), json, ids);
    }
  }

  lemma {:induction false} NotFitting(wire: seq<StreamEvent>, limit: int, json: JsonLength)
    ensures !Fits(wire, limit, json) <==> exists e <- wire :: json(e) >= limit
  {
    if !Fits(wire, limit, json) {
      var i :| 0 <= i < |wire| && json(wire[i]) >= limit;
      assert wire[i] in wire;
    }
  }

  /** The search gives up exactly when none of the four sizes it tries fits. */
  lemma {:induction false} SplitFailsExactly(ev: StreamEvent, maxLineBytes: int, json: JsonLength, ids: nat -> ChunkId)
    ensures Split(ev, maxLineBytes, json, ids).Err? <==>
            && ev.kind == ToolResult
            && json(ev) >= Limit(maxLineBytes)
            && forall size :: size in {49152, 24576, 12288, 6144} ==>
                 exists e <- Chunked(ev, size, ids(size)) :: json(e) >= Limit(maxLineBytes)
  {
    var limit := Limit(maxLineBytes);
    forall size | size in {49152, 24576, 12288, 6144}
      ensures !Fits(Chunked(ev, size, ids(size)), limit, json) <==>
              exists e <- Chunked(ev, size, ids(size)) :: json(e) >= limit
    {
      NotFitting(Chunked(ev, size, ids(size)), limit, json);
    }
    assert SplitFrom(ev, 3072, limit, json, ids).Err?;
    assert SplitFrom(ev, 6144, limit, json, ids).Err? <==> !Fits(Chunked(ev, 6144, ids(6144)), limit, json);
    assert SplitFrom(ev, 12288, limit, json, ids).Err? <==>
      !Fits(Chunked(ev, 12288, ids(12288)), limit, json) && SplitFrom(ev, 6144, limit, json, ids).Err?;
    assert SplitFrom(ev, 24576, limit, json, ids).Err? <==>
      !Fits(Chunked(ev, 24576, ids(24576)), limit, json) && SplitFrom(ev, 12288, limit, json, ids).Err?;
    assert SplitFrom(ev, 49152, limit, json, ids).Err? <==>
      !Fits(Chunked(ev, 49152, ids(49152)), limit, json) && SplitFrom(ev, 24576, limit, json, ids).Err?;
  }

  // ---------------------------------------------------------------- the loops

  method BuildChunkedToolResult(ev: StreamEvent, chunkSize: nat, limit: int, chunkID: ChunkId, json: JsonLength)
    returns (out: seq<StreamEvent>, ok: bool)
    requires 0 < chunkSize
    ensures ok <==> Fits(Chunked(ev, chunkSize, chunkID), limit, json)
    ensures ok ==> out == Chunked(ev, chunkSize, chunkID)
  {
    var content := ev.content;
    var total := (|content| + chunkSize - 1) / chunkSize;
    if total == 0 {
      total := 1;
    }
    PieceIsSlice(content, chunkSize, 0);
    ghost var parts := PartEvents(ev, chunkSize, chunkID);
    assert total == |parts|;
    out := [];
    for i := 0 to total
      invariant out == parts[..i]
    {
      PieceIsSlice(content, chunkSize, i);
      var start := i * chunkSize;
      var end := start + chunkSize;
      if end > |content| {
        end := |content|;
      }
      var part := Blank(ToolResultPart).(content := content[start..end], toolName := ev.toolName,
                                         chunkID := chunkID, chunkIndex := i, chunkTotal := total);
      assert part == parts[i];
      OneMore(parts, i);
      out := out + [part];
    }
    Whole(parts);
    out := out + [Blank(ToolResult).(toolName := ev.toolName, chunkID := chunkID, content := "")];
    for i := 0 to |out|
      invariant forall k :: 0 <= k < i ==> json(out[k]) < limit
    {
      if json(out[i]) >= limit {
        return [], false;
      }
    }
    ok := true;
  }

  method SplitStreamEventForSSE(ev: StreamEvent, maxLineBytes: int, json: JsonLength, ids: nat -> ChunkId)
    returns (r: Result<seq<StreamEvent>, SplitError>)
    ensures r == Split(ev, maxLineBytes, json, ids)
  {
    if ev.kind != ToolResult {
      return Ok([ev]);
    }
    var limit := maxLineBytes;
    if limit <= 0 {
      limit := DEFAULT_MAX_SSE_DATA_LINE_BYTES;
    }
    if json(ev) < limit {
      return Ok([ev]);
    }
    var chunkSize: nat := DEFAULT_SSE_CHUNK_CONTENT_BYTES;
    while chunkSize >= MIN_SSE_CHUNK_CONTENT_BYTES
      invariant SplitFrom(ev, DEFAULT_SSE_CHUNK_CONTENT_BYTES, limit, json, ids)
             == SplitFrom(ev, chunkSize, limit, json, ids)
    {
      var out, ok := BuildChunkedToolResult(ev, chunkSize, limit, ids(chunkSize), json);
      if ok {
        return Ok(out);
      }
      chunkSize := chunkSize / 2;
    }
    return Err(CannotSplit);
  }
}
