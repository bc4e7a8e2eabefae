/** The client's assembler (client/internal/ssechunk/assembler.go) against the server's reassembly
    (codingagent/sse_chunk.go) of the same events. */
module ChunkAgreement {
  import opened Wrappers
  import opened Events
  import opened SseChunk

  /** Part events of one chunk, the first one's. */
  ghost predicate OneChunk(first: StreamEvent, events: seq<StreamEvent>) {
    forall i :: 0 <= i < |events| ==> events[i].kind == ToolResultPart && events[i].chunkID == first.chunkID
  }

  /** Every event numbers itself within its own total. */
  ghost predicate InRange(events: seq<StreamEvent>) {
    forall i :: 0 <= i < |events| ==> 0 <= events[i].chunkIndex < events[i].chunkTotal
  }

  /** AddPart reports no error for any of the events, one after the other. */
  predicate AllAccepted(events: seq<StreamEvent>) {
    if events == [] then true
    else
      var front, last := events[..|events| - 1], events[|events| - 1];
      AllAccepted(front) && Added(AddedAll(map[], AsParts(front)), AsPart(last)).1 == None
  }

  /** The assembler's table when it holds these parts of one chunk. */
  function TableOf(first: StreamEvent, parts: map<int, string>, events: seq<StreamEvent>): Pending {
    if events == [] then map[] else map[first.chunkID := ChunkBuffer(parts, first.chunkTotal)]
  }

  /** One more part: the assembler takes it exactly when reassembly does, with the same effect. */
  lemma {:induction false} OneMorePart(first: StreamEvent, table: Pending, parts: map<int, string>, ev: StreamEvent)
    requires first.chunkID != "" && ev.chunkID == first.chunkID
    requires table == map[first.chunkID := ChunkBuffer(parts, first.chunkTotal)]
             || (table == map[] && parts == map[] && ev == first)
    ensures Added(table, AsPart(ev)).1 == None <==> ev.chunkTotal == first.chunkTotal && ev.chunkIndex !in parts
    ensures Added(table, AsPart(ev)).1 == None ==>
              Added(table, AsPart(ev)).0 ==
              map[first.chunkID := ChunkBuffer(parts[ev.chunkIndex := ev.content], first.chunkTotal)]
  {
    var after := ChunkBuffer(parts[ev.chunkIndex := ev.content], first.chunkTotal);
    assert table[first.chunkID := after] == map[first.chunkID := after];
  }

  lemma {:induction false} AddedAllSnoc(events: seq<StreamEvent>)
    requires events != []
    ensures AddedAll(map[], AsParts(events)) ==
            Added(AddedAll(map[], AsParts(events[..|events| - 1])), AsPart(events[|events| - 1])).0
  {
    assert AsParts(events)[..|events| - 1] == AsParts(events[..|events| - 1]);
  }

  /** The assembler accepts all the parts exactly when reassembly finds no fault, and then holds what it
      collects. */
  lemma {:induction false} AcceptedExactly(first: StreamEvent, events: seq<StreamEvent>)
    requires first.chunkID != "" && OneChunk(first, events) && (events != [] ==> events[0] == first)
    ensures AllAccepted(events) <==> Collected(first, events).Ok?
    ensures AllAccepted(events) ==>
              AddedAll(map[], AsParts(events)) == TableOf(first, Collected(first, events).value, events)
  {
    if events != [] {
      var front, last := events[..|events| - 1], events[|events| - 1];
      AcceptedExactly(first, front);
      AddedAllSnoc(events);
      if Collected(first, front).Ok? {
        OneMorePart(first, AddedAll(map[], AsParts(front)), Collected(first, front).value, last);
      }
    }
  }

  /** What collecting without a fault says about the events. */
  lemma {:induction false} CollectedSays(first: StreamEvent, events: seq<StreamEvent>)
    requires Collected(first, events).Ok?
    ensures OneChunk(first, events)
    ensures forall i :: 0 <= i < |events| ==>
              events[i].chunkTotal == first.chunkTotal && events[i].chunkIndex in Collected(first, events).value
  {
    if events != [] {
      CollectedSays(first, events[..|events| - 1]);
    }
  }

  ghost predicate Numbered(events: seq<StreamEvent>, n: int) {
    exists i :: 0 <= i < |events| && events[i].chunkIndex == n
  }

  /** And every index collected is that of an event. */
  lemma {:induction false} CollectedFrom(first: StreamEvent, events: seq<StreamEvent>, n: int)
    requires Collected(first, events).Ok? && n in Collected(first, events).value
    ensures Numbered(events, n)
  {
    var front := events[..|events| - 1];
    if n in Collected(first, front).value {
      CollectedFrom(first, front, n);
      var i :| 0 <= i < |front| && front[i].chunkIndex == n;
      assert events[i].chunkIndex == n;
    } else {
      assert events[|front|].chunkIndex == n;
    }
  }

  /** With the same parts at hand, completing differs from assembling only on indices out of range. */
  lemma {:induction false} CompletesExactly(first: StreamEvent, parts: map<int, string>)
    ensures var client := Completed(map[first.chunkID := ChunkBuffer(parts, first.chunkTotal)], first.chunkID);
            && (client.Ok? <==> Assembled(parts, first.chunkTotal).Ok? && 0 <= first.chunkTotal
                                && forall n :: n in parts ==> 0 <= n < first.chunkTotal)
            && (client.Ok? ==> client == Assembled(parts, first.chunkTotal))
  {
    var total := first.chunkTotal;
    CompletedExactly(map[first.chunkID := ChunkBuffer(parts, total)], first.chunkID);
    AssembledExactly(parts, total);
    if Assembled(parts, total).Ok? && 0 <= total && forall n :: n in parts ==> 0 <= n < total {
      assert parts.Keys == IndexRange(total);
    }
  }

  lemma {:induction false} RangeOfParts(first: StreamEvent, events: seq<StreamEvent>)
    requires events != [] && Collected(first, events).Ok?
    ensures InRange(events) <==>
            0 <= first.chunkTotal && forall n :: n in Collected(first, events).value ==> 0 <= n < first.chunkTotal
  {
    CollectedSays(first, events);
    var parts := Collected(first, events).value;
    if InRange(events) {
      assert 0 <= events[0].chunkIndex < events[0].chunkTotal;
      forall n | n in parts
        ensures 0 <= n < first.chunkTotal
      {
        CollectedFrom(first, events, n);
        var i :| 0 <= i < |events| && events[i].chunkIndex == n;
      }
    }
  }

  /** For every list of events: the assembler takes them all as parts of one chunk and completes it if and
      only if reassembly succeeds, the chunk has an id and every index is in range; and then the two
      contents are the same. */
  lemma {:induction false} AgreesExactly(events: seq<StreamEvent>)
    requires events != []
    ensures var first := events[0];
            var client := Completed(AddedAll(map[], AsParts(events)), first.chunkID);
            && (OneChunk(first, events) && AllAccepted(events) && client.Ok? <==>
                  Reassembled(events).Ok? && first.chunkID != "" && InRange(events))
            && (OneChunk(first, events) && AllAccepted(events) && client.Ok? ==> client == Reassembled(events))
  {
    var first := events[0];
    if Collected(first, events).Ok? {
      CollectedSays(first, events);
      RangeOfParts(first, events);
    }
    if first.chunkID != "" && OneChunk(first, events) {
      AcceptedExactly(first, events);
      if Collected(first, events).Ok? {
        CompletesExactly(first, Collected(first, events).value);
      }
    }
  }

  /** The smallest list on which they disagree: a second part past the total, which reassembly ignores. */
  lemma {:induction false} StrayPartIgnored(chunkID: string, content: string, stray: string)
    requires chunkID != ""
    ensures var part := Blank(ToolResultPart).(chunkID := chunkID, chunkTotal := 1);
            var events := [part.(content := content), part.(content := stray, chunkIndex := 1)];
            Reassembled(events).Ok? && Completed(AddedAll(map[], AsParts(events)), chunkID).Err?
  {
    var part := Blank(ToolResultPart).(chunkID := chunkID, chunkTotal := 1);
    var first, second := part.(content := content), part.(content := stray, chunkIndex := 1);
    var events := [first, second];
    assert events[..1] == [first] && [first][..0] == [];
    assert Collected(first, []) == Ok(map[]);
    assert Collected(first, [first]) == Ok(map[0 := content]);
    assert Collected(first, events) == Ok(map[0 := content][1 := stray]);
    var parts := map[0 := content][1 := stray];
    assert Assembled(parts, 0) == Ok("");
    assert Assembled(parts, 1).Ok?;
    AcceptedExactly(first, events);
    CompletesExactly(first, parts);
    assert 1 in parts;
  }
}
