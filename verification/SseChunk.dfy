/** Reassembling chunked tool results (client/internal/ssechunk/assembler.go), and its agreement
    with the server's own ReassembleToolResultParts (codingagent/sse_chunk.go). */
module SseChunk {
  import opened Wrappers
  import opened Seqs
  import opened Events
  import opened Chunking

  datatype Part = Part(chunkID: string, chunkIndex: int, chunkTotal: int, content: string)

  datatype ChunkBuffer = ChunkBuffer(parts: map<int, string>, total: int)

  type Pending = map<string, ChunkBuffer>

  datatype ChunkError =
    | MissingChunkId
    | TotalMismatch
    | DuplicateIndex(index: int)
    | UnknownChunkId
    | Incomplete
    | MissingIndex(missing: int)
    | NoEvents
    | NotAPart
    | ChunkIdMismatch

  // ---------------------------------------------------------------- specification

  /** What AddPart leaves in the table, and the error it reports. A part with an unseen id opens a
      buffer whose total is the part's own, so a first part is never rejected. */
  function Added(pending: Pending, p: Part): (r: (Pending, Option<ChunkError>)) {
    if p.chunkID == "" then (pending, Some(MissingChunkId))
    else
      var buf := if p.chunkID in pending then pending[p.chunkID] else ChunkBuffer(map[], p.chunkTotal);
      if buf.total != p.chunkTotal then (pending, Some(TotalMismatch))
      else if p.chunkIndex in buf.parts then (pending, Some(DuplicateIndex(p.chunkIndex)))
      else (pending[p.chunkID := buf.(parts := buf.parts[p.chunkIndex := p.content])], None)
  }

  /** The first `total` parts in index order; the first gap is an error. */
  function Assembled(parts: map<int, string>, total: int): Result<string, ChunkError> {
    if total <= 0 then Ok("")
    else
      match Assembled(parts, total - 1)
      case Err(e) => Err(e)
      case Ok(front) => if total - 1 in parts then Ok(front + parts[total - 1]) else Err(MissingIndex(total - 1))
  }

  function Completed(pending: Pending, chunkID: string): Result<string, ChunkError> {
    if chunkID !in pending then Err(UnknownChunkId)
    else if |pending[chunkID].parts| != pending[chunkID].total then Err(Incomplete)
    else Assembled(pending[chunkID].parts, pending[chunkID].total)
  }

  /** What AddPart reports, and when; a part that is refused changes nothing. */
  lemma {:induction false} RefusedExactly(pending: Pending, p: Part)
    ensures var (after, error) := Added(pending, p);
            && (error == Some(MissingChunkId) <==> p.chunkID == "")
            && (error == Some(TotalMismatch) <==>
                  p.chunkID != "" && p.chunkID in pending && pending[p.chunkID].total != p.chunkTotal)
            && (error == Some(DuplicateIndex(p.chunkIndex)) <==>
                  p.chunkID != "" && p.chunkID in pending && pending[p.chunkID].total == p.chunkTotal
                  && p.chunkIndex in pending[p.chunkID].parts)
            && (error.Some? ==>
                  after == pending && error.value in {MissingChunkId, TotalMismatch, DuplicateIndex(p.chunkIndex)})
  {
  }

  /** The gap that Assembled reports is the first one. */
  lemma {:induction false} FirstGap(parts: map<int, string>, total: int)
    requires Assembled(parts, total).Err?
    ensures var e := Assembled(parts, total).error;
            e.MissingIndex? && 0 <= e.missing < total && e.missing !in parts && HasAll(parts, e.missing)
    decreases total
  {
    if Assembled(parts, total - 1).Err? {
      FirstGap(parts, total - 1);
    } else {
      AssembledExactly(parts, total - 1);
    }
  }

  /** What Complete reports, and when: an id that is not there, a count that differs from the total, and with
      the right count the first index that is missing. */
  lemma {:induction false} CompletionFailsExactly(pending: Pending, chunkID: string)
    ensures var r := Completed(pending, chunkID);
            && (r == Err(UnknownChunkId) <==> chunkID !in pending)
            && (r == Err(Incomplete) <==>
                  chunkID in pending && |pending[chunkID].parts| != pending[chunkID].total)
            && (r.Err? && r.error != UnknownChunkId && r.error != Incomplete ==>
                  && r.error.MissingIndex? && 0 <= r.error.missing < pending[chunkID].total
                  && r.error.missing !in pending[chunkID].parts && HasAll(pending[chunkID].parts, r.error.missing))
  {
    if chunkID in pending && Assembled(pending[chunkID].parts, pending[chunkID].total).Err? {
      FirstGap(pending[chunkID].parts, pending[chunkID].total);
    }
  }

  function IndexRange(total: int): (r: set<int>)
    ensures forall i :: i in r <==> 0 <= i < total
    ensures 0 <= total ==> |r| == total
  {
    if total <= 0 then {} else IndexRange(total - 1) + {total - 1}
  }

  ghost predicate HasAll(parts: map<int, string>, total: int) {
    forall i :: 0 <= i < total ==> i in parts
  }

  /** The pieces numbered 0 to `total - 1`. */
  function PieceAt(parts: map<int, string>, total: int): seq<string>
    requires HasAll(parts, total)
  {
    if total <= 0 then [] else PieceAt(parts, total - 1) + [parts[total - 1]]
  }

  lemma {:induction false} AssembledExactly(parts: map<int, string>, total: int)
    ensures Assembled(parts, total).Ok? <==> HasAll(parts, total)
    decreases if total < 0 then 0 else total
  {
    if 0 < total {
      AssembledExactly(parts, total - 1);
    }
  }

  lemma {:induction false} AssembledInOrder(parts: map<int, string>, total: int)
    requires HasAll(parts, total)
    ensures Assembled(parts, total) == Ok(Join(PieceAt(parts, total)))
    decreases if total < 0 then 0 else total
  {
    if 0 < total {
      var n := total - 1;
      AssembledInOrder(parts, n);
      var pieces := PieceAt(parts, n);
      assert PieceAt(parts, total) == pieces + [parts[n]];
      JoinSnoc(pieces, parts[n]);
      assert Assembled(parts, total) == Ok(Join(pieces) + parts[n]);
    }
  }

  lemma {:induction false} FirstGapDecides(parts: map<int, string>, i: int, total: int)
    requires i <= total && Assembled(parts, i).Err?
    ensures Assembled(parts, total) == Assembled(parts, i)
    decreases total - i
  {
    if i < total {
      FirstGapDecides(parts, i + 1, total);
    }
  }

  /** Complete succeeds exactly when the buffered indices are 0 to total - 1, and then returns the
      contents joined in index order. */
  lemma {:induction false} CompletedExactly(pending: Pending, chunkID: string)
    ensures Completed(pending, chunkID).Ok? <==>
            && chunkID in pending
            && 0 <= pending[chunkID].total
            && pending[chunkID].parts.Keys == IndexRange(pending[chunkID].total)
    ensures Completed(pending, chunkID).Ok? ==>
              Completed(pending, chunkID).value == Join(PieceAt(pending[chunkID].parts, pending[chunkID].total))
  {
    if chunkID in pending {
      var ChunkBuffer(parts, total) := pending[chunkID];
      AssembledExactly(parts, total);
      if 0 <= total {
        assert |parts| == |parts.Keys|;
        if Completed(pending, chunkID).Ok? {
          AssembledInOrder(parts, total);
          SameSizeSubset(IndexRange(total), parts.Keys);
        }
      }
    }
  }

  lemma {:induction false} SameSizeSubset(a: set<int>, b: set<int>)
    requires a <= b && |a| == |b|
    ensures a == b
  {
    assert |b - a| == |b| - |a|;
  }

  // ---------------------------------------------------------------- any order, interleaved

  /** The table after a run of parts, whatever AddPart reported for each. */
  function AddedAll(pending: Pending, ps: seq<Part>): Pending {
    if ps == [] then pending else Added(AddedAll(pending, ps[..|ps| - 1]), ps[|ps| - 1]).0
  }

  /** The parts of `ps` that carry the given chunk id. */
  function OfChunk(ps: seq<Part>, chunkID: string): seq<Part> {
    if ps == [] then []
    else
      var front := OfChunk(ps[..|ps| - 1], chunkID);
      if ps[|ps| - 1].chunkID == chunkID then front + [ps[|ps| - 1]] else front
  }

  /** The parts of one chunked tool result, in the order the server sends them. */
  function PartsOf(pieces: seq<string>, chunkID: string): seq<Part> {
    seq(|pieces|, i requires 0 <= i < |pieces| => Part(chunkID, i, |pieces|, pieces[i]))
  }

  /** The indices and contents that a subset of the parts leaves in the buffer. */
  ghost predicate Buffers(parts: map<int, string>, ms: multiset<Part>, pieces: seq<string>, chunkID: string) {
    && (forall i :: i in parts ==> 0 <= i < |pieces| && parts[i] == pieces[i])
    && (forall i :: 0 <= i < |pieces| ==> (i in parts <==> Part(chunkID, i, |pieces|, pieces[i]) in ms))
  }

  lemma {:induction false} PartsOfOnce(pieces: seq<string>, chunkID: string, p: Part)
    ensures multiset(PartsOf(pieces, chunkID))[p] <= 1
    ensures p in multiset(PartsOf(pieces, chunkID)) <==>
            0 <= p.chunkIndex < |pieces| && p == Part(chunkID, p.chunkIndex, |pieces|, pieces[p.chunkIndex])
  {
    var ps := PartsOf(pieces, chunkID);
    if p in ps {
      var i := p.chunkIndex;
      assert ps == ps[..i] + [ps[i]] + ps[i + 1..];
      assert p !in ps[..i] && p !in ps[i + 1..];
      assert multiset(ps) == multiset(ps[..i]) + multiset{p} + multiset(ps[i + 1..]);
    }
    if 0 <= p.chunkIndex < |pieces| && p == Part(chunkID, p.chunkIndex, |pieces|, pieces[p.chunkIndex]) {
      assert ps[p.chunkIndex] == p;
    }
  }

  lemma {:induction false} BuffersMore(parts: map<int, string>, ms: multiset<Part>, pieces: seq<string>,
                                       chunkID: string,
                                       p: Part)
    requires Buffers(parts, ms, pieces, chunkID) && p !in ms
    requires 0 <= p.chunkIndex < |pieces| && p == Part(chunkID, p.chunkIndex, |pieces|, pieces[p.chunkIndex])
    ensures p.chunkIndex !in parts
    ensures Buffers(parts[p.chunkIndex := p.content], ms + multiset{p}, pieces, chunkID)
  {
  }

  lemma {:induction false} BufferAfter(ps: seq<Part>, pieces: seq<string>, chunkID: string)
    requires chunkID != ""
    requires multiset(OfChunk(ps, chunkID)) <= multiset(PartsOf(pieces, chunkID))
    ensures OfChunk(ps, chunkID) == [] ==> chunkID !in AddedAll(map[], ps)
    ensures OfChunk(ps, chunkID) != [] ==>
              && chunkID in AddedAll(map[], ps)
              && AddedAll(map[], ps)[chunkID].total == |pieces|
              && Buffers(AddedAll(map[], ps)[chunkID].parts, multiset(OfChunk(ps, chunkID)), pieces, chunkID)
  {
    if ps != [] {
      var front, p := ps[..|ps| - 1], ps[|ps| - 1];
      var mine := OfChunk(front, chunkID);
      if p.chunkID != chunkID {
        BufferAfter(front, pieces, chunkID);
      } else {
        assert multiset(OfChunk(ps, chunkID)) == multiset(mine) + multiset{p};
        BufferAfter(front, pieces, chunkID);
        PartsOfOnce(pieces, chunkID, p);
        assert p !in multiset(mine);
        assert p in multiset(OfChunk(ps, chunkID));
        var was := AddedAll(map[], front);
        var parts := if mine == [] then map[] else was[chunkID].parts;
        BuffersMore(parts, multiset(mine), pieces, chunkID, p);
        assert Added(was, p).0 == was[chunkID := ChunkBuffer(parts[p.chunkIndex := p.content], |pieces|)];
      }
    }
  }

  /** Chunk round trip: whatever order the parts arrive in, and whatever parts of other chunk ids
      arrive between them, completing the chunk returns the content. */
  lemma {:induction false} AnyOrderRoundTrip(ps: seq<Part>, content: string, size: nat, chunkID: ChunkId)
    requires 0 < size
    requires multiset(OfChunk(ps, chunkID)) == multiset(PartsOf(Pieces(content, size), chunkID))
    ensures Completed(AddedAll(map[], ps), chunkID) == Ok(content)
  {
    var pieces := Pieces(content, size);
    var pending := AddedAll(map[], ps);
    assert PartsOf(pieces, chunkID)[0] in multiset(OfChunk(ps, chunkID));
    BufferAfter(ps, pieces, chunkID);
    var parts := pending[chunkID].parts;
    forall i | 0 <= i < |pieces|
      ensures i in parts
    {
      assert PartsOf(pieces, chunkID)[i] in multiset(OfChunk(ps, chunkID));
    }
    assert parts.Keys == IndexRange(|pieces|);
    CompletedExactly(pending, chunkID);
    PieceAtIs(parts, pieces, |pieces|);
    Whole(pieces);
    JoinPieces(content, size);
  }

  lemma {:induction false} PieceAtIs(parts: map<int, string>, pieces: seq<string>, n: nat)
    requires n <= |pieces|
    requires HasAll(parts, n) && forall i :: 0 <= i < n ==> parts[i] == pieces[i]
    ensures PieceAt(parts, n) == pieces[..n]
  {
    if n > 0 {
      PieceAtIs(parts, pieces, n - 1);
      assert PieceAt(parts, n) == PieceAt(parts, n - 1) + [parts[n - 1]];
      assert pieces[..n] == pieces[..n - 1] + [pieces[n - 1]];
    }
  }

  // ---------------------------------------------------------------- the client's assembler

  class Assembler {
    var pending: Pending

    constructor ()
      ensures pending == map[]
    {
      pending := map[];
    }

    method AddPart(p: Part) returns (error: Option<ChunkError>)
      modifies this
      ensures (pending, error) == Added(old(pending), p)
    {
      if p.chunkID == "" {
        return Some(MissingChunkId);
      }
      var buf := ChunkBuffer(map[], p.chunkTotal);
      if p.chunkID in pending {
        buf := pending[p.chunkID];
      }
      if buf.total != p.chunkTotal {
        return Some(TotalMismatch);
      }
      if p.chunkIndex in buf.parts {
        return Some(DuplicateIndex(p.chunkIndex));
      }
      pending := pending[p.chunkID := buf.(parts := buf.parts[p.chunkIndex := p.content])];
      return None;
    }

    /** A failed completion keeps the buffer; a successful one forgets it. */
    method Complete(chunkID: string) returns (r: Result<string, ChunkError>)
      modifies this
      ensures r == Completed(old(pending), chunkID)
      ensures pending == if r.Ok? then old(pending) - {chunkID} else old(pending)
    {
      if chunkID !in pending {
        return Err(UnknownChunkId);
      }
      var buf := pending[chunkID];
      if |buf.parts| != buf.total {
        return Err(Incomplete);
      }
      r := AssembleInOrder(buf.parts, buf.total);
      if r.Ok? {
        pending := pending - {chunkID};
      }
    }

    method FlushIncomplete() returns (error: Option<ChunkError>)
      ensures error == if pending == map[] then None else Some(Incomplete)
    {
      assert |pending| > 0 <==> pending != map[];
      error := if |pending| > 0 then Some(Incomplete) else None;
    }
  }

  method AssembleInOrder(parts: map<int, string>, total: int) returns (r: Result<string, ChunkError>)
    ensures r == Assembled(parts, total)
  {
    var assembled := "";
    var i := 0;
    while i < total
      invariant 0 <= i && (i <= total || i == 0)
      invariant Assembled(parts, i) == Ok(assembled)
    {
      if i !in parts {
        FirstGapDecides(parts, i + 1, total);
        return Err(MissingIndex(i));
      }
      assembled := assembled + parts[i];
      i := i + 1;
    }
    return Ok(assembled);
  }

  // ---------------------------------------------------------------- the server's reassembly

  /** The buffer of a list of part events like `first`, or the first fault in the list. */
  function Collected(first: StreamEvent, events: seq<StreamEvent>): Result<map<int, string>, ChunkError> {
    if events == [] then Ok(map[])
    else
      match Collected(first, events[..|events| - 1])
      case Err(e) => Err(e)
      case Ok(parts) =>
        var ev := events[|events| - 1];
        if ev.kind != ToolResultPart then Err(NotAPart)
        else if ev.chunkID != first.chunkID then Err(ChunkIdMismatch)
        else if ev.chunkTotal != first.chunkTotal then Err(TotalMismatch)
        else if ev.chunkIndex in parts then Err(DuplicateIndex(ev.chunkIndex))
        else Ok(parts[ev.chunkIndex := ev.content])
  }

  function Reassembled(events: seq<StreamEvent>): Result<string, ChunkError> {
    if events == [] then Err(NoEvents)
    else
      match Collected(events[0], events)
      case Err(e) => Err(e)
      case Ok(parts) => Assembled(parts, events[0].chunkTotal)
  }

  method ReassembleToolResultParts(events: seq<StreamEvent>) returns (r: Result<string, ChunkError>)
    ensures r == Reassembled(events)
  {
    if events == [] {
      return Err(NoEvents);
    }
    var first := events[0];
    var parts: map<int, string> := map[];
    for i := 0 to |events|
      invariant Collected(first, events[..i]) == Ok(parts)
    {
      var ev := events[i];
      OneMore(events, i);
      if ev.kind != ToolResultPart {
        FirstFaultDecides(first, events, i + 1);
        return Err(NotAPart);
      }
      if ev.chunkID != first.chunkID {
        FirstFaultDecides(first, events, i + 1);
        return Err(ChunkIdMismatch);
      }
      if ev.chunkTotal != first.chunkTotal {
        FirstFaultDecides(first, events, i + 1);
        return Err(TotalMismatch);
      }
      if ev.chunkIndex in parts {
        FirstFaultDecides(first, events, i + 1);
        return Err(DuplicateIndex(ev.chunkIndex));
      }
      parts := parts[ev.chunkIndex := ev.content];
    }
    Whole(events);
    r := AssembleInOrder(parts, first.chunkTotal);
  }

  lemma {:induction false} FirstFaultDecides(first: StreamEvent, events: seq<StreamEvent>, n: nat)
    requires n <= |events|
    requires Collected(first, events[..n]).Err?
    ensures Collected(first, events) == Collected(first, events[..n])
    decreases |events| - n
  {
    if n < |events| {
      OneMore(events, n);
      FirstFaultDecides(first, events, n + 1);
    } else {
      assert events[..n] == events;
    }
  }

  /** The parts collected are those of the events, each index once. */
  lemma {:induction false} CollectedAre(first: StreamEvent, events: seq<StreamEvent>)
    requires Collected(first, events).Ok?
    ensures var parts := Collected(first, events).value;
            && (forall i :: 0 <= i < |events| ==>
                  events[i].chunkIndex in parts && parts[events[i].chunkIndex] == events[i].content)
            && forall x <- parts :: exists i :: 0 <= i < |events| && events[i].chunkIndex == x
  {
    if events != [] {
      var front, last := events[..|events| - 1], events[|events| - 1];
      CollectedAre(first, front);
      forall x <- Collected(first, events).value
        ensures exists i :: 0 <= i < |events| && events[i].chunkIndex == x
      {
        if x in Collected(first, front).value {
          var i :| 0 <= i < |front| && front[i].chunkIndex == x;
          assert events[i].chunkIndex == x;
        }
      }
    }
  }

  /** Which fault the server reports: that of the first event that is no part, or has another chunk id, another
      total, or an index that was there before, in this order. */
  lemma {:induction false} FirstFault(first: StreamEvent, events: seq<StreamEvent>)
    returns (i: nat)
    requires Collected(first, events).Err?
    ensures i < |events| && Collected(first, events[..i]).Ok?
    ensures var ev := events[i];
            Collected(first, events).error ==
            if ev.kind != ToolResultPart then NotAPart
            else if ev.chunkID != first.chunkID then ChunkIdMismatch
            else if ev.chunkTotal != first.chunkTotal then TotalMismatch
            else DuplicateIndex(ev.chunkIndex)
    ensures var ev := events[i];
            ev.kind == ToolResultPart && ev.chunkID == first.chunkID && ev.chunkTotal == first.chunkTotal ==>
              exists j :: 0 <= j < i && events[j].chunkIndex == ev.chunkIndex
  {
    var n := |events| - 1;
    if Collected(first, events[..n]).Err? {
      i := FirstFault(first, events[..n]);
      assert events[..n][..i] == events[..i];
      if exists j :: 0 <= j < i && events[..n][j].chunkIndex == events[..n][i].chunkIndex {
        var j :| 0 <= j < i && events[..n][j].chunkIndex == events[..n][i].chunkIndex;
        assert events[j].chunkIndex == events[i].chunkIndex;
      }
    } else {
      i := n;
      CollectedAre(first, events[..n]);
      if events[n].chunkIndex in Collected(first, events[..n]).value {
        var j :| 0 <= j < n && events[..n][j].chunkIndex == events[n].chunkIndex;
        assert events[j].chunkIndex == events[n].chunkIndex;
      }
    }
  }

  function AsPart(ev: StreamEvent): Part {
    Part(ev.chunkID, ev.chunkIndex, ev.chunkTotal, ev.content)
  }

  function AsParts(events: seq<StreamEvent>): (ps: seq<Part>)
    ensures |ps| == |events|
  {
    if events == [] then [] else AsParts(events[..|events| - 1]) + [AsPart(events[|events| - 1])]
  }
}
