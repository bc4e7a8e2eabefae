/** Exactly-once delivery across dropped connections: the server's stream of one relay log, cut
    between any two lines and followed again from the last id, as the client reads it. */
module Resume {
  import opened Wrappers
  import opened Seqs
  import opened Events
  import opened Decimal
  import opened Chunking
  import opened SseChunk
  import opened ClientStream
  import opened Terminal
  import opened Attach
  import opened Verdict
  import opened Follow

  /** An event as an agent produces it: chunk parts and chunk ids exist only on the wire. */
  predicate Logical(ev: StreamEvent) {
    ev.kind != ToolResultPart && (ev.kind == ToolResult ==> ev.chunkID == "")
  }

  predicate LogicalLog(log: seq<StreamEvent>) {
    forall i :: 0 <= i < |log| ==> Logical(log[i])
  }

  // ---------------------------------------------------------------- what should be delivered

  /** Event `i` of the log as the client should see it, whole and with its index as id. */
  function View(turn: Turn, log: seq<StreamEvent>, i: nat): ClientEvent
    requires i < |log|
  {
    var ev := Stamp(turn, log[i]);
    (if ev.kind == ToolResult then ToolResultEvent(ev.toolName, ev.content) else PlainEvent(ev)).(id := Itoa(i))
  }

  /** The events of log[from..k] that are not retryable errors, in order, each once. */
  function Views(turn: Turn, log: seq<StreamEvent>, from: nat, k: nat): seq<ClientEvent>
    requires k <= |log|
  {
    if k <= from then []
    else Views(turn, log, from, k - 1) + (if IsRetryableError(log[k - 1]) then [] else [View(turn, log, k - 1)])
  }

  /** The id of the last of them, or `base` when there is none. */
  function LastID(base: string, log: seq<StreamEvent>, from: nat, k: nat): string
    requires k <= |log|
  {
    if k <= from then base
    else if IsRetryableError(log[k - 1]) then LastID(base, log, from, k - 1)
    else Itoa(k - 1)
  }

  function LastViewID(log: seq<StreamEvent>, from: nat, k: nat): string
    requires k <= |log|
  {
    LastID("", log, from, k)
  }

  /** The index right after the last of them. */
  function ResumePoint(log: seq<StreamEvent>, from: nat, k: nat): nat
    requires k <= |log|
  {
    if k <= from then from
    else if IsRetryableError(log[k - 1]) then ResumePoint(log, from, k - 1)
    else k
  }

  lemma {:induction false} ViewsJoin(turn: Turn, log: seq<StreamEvent>, from: nat, mid: nat, k: nat)
    requires from <= mid <= k <= |log|
    ensures Views(turn, log, from, mid) + Views(turn, log, mid, k) == Views(turn, log, from, k)
  {
    if mid < k {
      ViewsJoin(turn, log, from, mid, k - 1);
      Regroup(Views(turn, log, from, mid), Views(turn, log, mid, k - 1),
              if IsRetryableError(log[k - 1]) then [] else [View(turn, log, k - 1)]);
    } else {
      AppendNothing(Views(turn, log, from, mid));
    }
  }

  /** Following from an id starts at `start`, whatever the buffer holds by then beyond it. */
  ghost predicate FollowsTo(id: string, start: nat, size: nat) {
    forall bufLen: nat :: start <= bufLen <= size ==> ParseFollowFrom(id, "", bufLen) == Ok(start)
  }

  /** Following from an id is refused, whatever the buffer holds. */
  ghost predicate FollowsNowhere(id: string, size: nat) {
    forall bufLen: nat :: bufLen <= size ==> ParseFollowFrom(id, "", bufLen) == Err(FromExceedsBuffer)
  }

  lemma {:induction false} FollowsToNext(i: nat, size: nat)
    requires i < size <= MAX_INT
    ensures FollowsTo(Itoa(i), i + 1, size)
  {
    var id := Itoa(i);
    forall bufLen: nat | i < bufLen <= size
      ensures ParseFollowFrom(id, "", bufLen) == Ok(i + 1)
    {
      FollowResumesAfter(i, "", bufLen);
    }
  }

  lemma {:induction false} ResumePointLosesNothing(turn: Turn, log: seq<StreamEvent>, from: nat, k: nat)
    requires from <= k <= |log| <= MAX_INT
    ensures from <= ResumePoint(log, from, k) <= k
    ensures Views(turn, log, from, ResumePoint(log, from, k)) == Views(turn, log, from, k)
    ensures Views(turn, log, ResumePoint(log, from, k), k) == []
    ensures LastViewID(log, from, k) == "" ==> ResumePoint(log, from, k) == from
    ensures LastViewID(log, from, k) != "" ==>
              && 0 < ResumePoint(log, from, k) && LastViewID(log, from, k) == Itoa(ResumePoint(log, from, k) - 1)
              && FollowsTo(LastViewID(log, from, k), ResumePoint(log, from, k), |log|)
  {
    if from < k {
      if IsRetryableError(log[k - 1]) {
        ResumePointLosesNothing(turn, log, from, k - 1);
      } else {
        FollowsToNext(k - 1, |log|);
      }
    }
  }

  // ---------------------------------------------------------------- the client on one event

  /** The id and data lines of a run of wire events with one id. */
  function CoreWire(id: nat, wire: seq<StreamEvent>): (lines: seq<Line>)
    ensures |lines| == 2 * |wire|
  {
    if wire == [] then []
    else CoreWire(id, wire[..|wire| - 1]) + [IdLine(Itoa(id)), DataLine(Marshal(wire[|wire| - 1]))]
  }

  lemma {:induction false} CoreOfWireLines(id: nat, wire: seq<StreamEvent>)
    ensures Core(WireLines(Some(id), wire)) == CoreWire(id, wire)
  {
    if wire != [] {
      var front, last := wire[..|wire| - 1], wire[|wire| - 1];
      CoreOfWireLines(id, front);
      CoreAppend(WireLines(Some(id), front), PartLines(Some(id), last));
      CoreOfThree(IdLine(Itoa(id)), DataLine(Marshal(last)));
    }
  }

  lemma {:induction false} CoreOfThree(a: Line, b: Line)
    requires a != OtherLine && b != OtherLine
    ensures Core([a, b, OtherLine]) == [a, b]
  {
    assert [a, b, OtherLine][..2] == [a, b];
    assert [a, b][..1] == [a];
    assert [a][..0] == [];
    assert Core([a]) == [a];
  }

  lemma {:induction false} CoreWirePrefix(id: nat, wire: seq<StreamEvent>, m: nat)
    requires m < 2 * |wire|
    ensures CoreWire(id, wire)[..m]
         == CoreWire(id, wire[..m / 2]) + (if m % 2 == 1 then [IdLine(Itoa(id))] else [])
  {
    var front := wire[..|wire| - 1];
    if m < 2 * |front| {
      CoreWirePrefix(id, front, m);
      assert front[..m / 2] == wire[..m / 2];
      assert CoreWire(id, wire)[..m] == CoreWire(id, front)[..m];
    } else {
      assert wire[..m / 2] == front;
    }
  }

  lemma {:induction false} RunTwo(s: ClientState, a: Line, b: Line)
    ensures Run(s, [a]) == Step(s, a)
    ensures Run(s, [a, b]) == Step(Step(s, a), b)
  {
    assert [a][..0] == [];
    assert [a, b][..1] == [a];
  }

  lemma {:induction false} RunWire(s: ClientState, id: nat, wire: seq<StreamEvent>, n: nat)
    requires n < |wire|
    ensures Run(s, CoreWire(id, wire[..n + 1]))
         == Step(Step(Run(s, CoreWire(id, wire[..n])), IdLine(Itoa(id))), DataLine(Marshal(wire[n])))
  {
    OneMore(wire, n);
    RunAppend(s, CoreWire(id, wire[..n]), [IdLine(Itoa(id)), DataLine(Marshal(wire[n]))]);
    RunTwo(Run(s, CoreWire(id, wire[..n])), IdLine(Itoa(id)), DataLine(Marshal(wire[n])));
  }

  /** The buffer after the first `n` parts. */
  function FirstPieces(pieces: seq<string>, n: nat): (parts: map<int, string>)
    requires n <= |pieces|
    ensures forall i :: i in parts <==> 0 <= i < n
    ensures forall i :: 0 <= i < n ==> parts[i] == pieces[i]
  {
    if n == 0 then map[] else FirstPieces(pieces, n - 1)[n - 1 := pieces[n - 1]]
  }

  function BufferAt(chunkID: string, pieces: seq<string>, n: nat): Pending
    requires n <= |pieces|
  {
    if n == 0 then map[] else map[chunkID := ChunkBuffer(FirstPieces(pieces, n), |pieces|)]
  }

  lemma {:induction false} AddedToBuffer(before: Pending, parts: map<int, string>, p: Part)
    requires p.chunkID != "" && p.chunkIndex !in parts
    requires before == map[p.chunkID := ChunkBuffer(parts, p.chunkTotal)] || (before == map[] && parts == map[])
    ensures Added(before, p) == (map[p.chunkID := ChunkBuffer(parts[p.chunkIndex := p.content], p.chunkTotal)], None)
  {
    var after := ChunkBuffer(parts[p.chunkIndex := p.content], p.chunkTotal);
    assert before[p.chunkID := after] == map[p.chunkID := after];
  }

  lemma {:induction false} AddedPiece(chunkID: ChunkId, pieces: seq<string>, n: nat)
    requires n < |pieces|
    ensures Added(BufferAt(chunkID, pieces, n), Part(chunkID, n, |pieces|, pieces[n]))
         == (BufferAt(chunkID, pieces, n + 1), None)
  {
    var parts := FirstPieces(pieces, n);
    var part := Part(chunkID, n, |pieces|, pieces[n]);
    assert FirstPieces(pieces, n + 1) == parts[n := pieces[n]];
    AddedToBuffer(BufferAt(chunkID, pieces, n), parts, part);
  }

  lemma {:induction false} StepPart(s: ClientState, id: nat, part: StreamEvent)
    requires s.phase == Reading && part.kind == ToolResultPart
    requires Added(s.pending, AsPart(part)).1 == None
    ensures Step(Step(s, IdLine(Itoa(id))), DataLine(Marshal(part)))
         == s.(pendingID := Itoa(id), pending := Added(s.pending, AsPart(part)).0)
  {
  }

  /** Parts alone emit nothing and leave the last id alone. */
  lemma {:induction false} PartsRun(s: ClientState, id: nat, ev: StreamEvent, size: nat, chunkID: ChunkId, n: nat)
    requires 0 < size && n <= |Pieces(ev.content, size)|
    requires s.phase == Reading && s.pending == map[]
    ensures Run(s, CoreWire(id, Chunked(ev, size, chunkID)[..n]))
         == s.(pendingID := if n == 0 then s.pendingID else Itoa(id),
               pending := BufferAt(chunkID, Pieces(ev.content, size), n))
  {
    var wire, pieces := Chunked(ev, size, chunkID), Pieces(ev.content, size);
    if n == 0 {
      assert wire[..0] == [];
    } else {
      PartsRun(s, id, ev, size, chunkID, n - 1);
      RunWire(s, id, wire, n - 1);
      assert wire[n - 1] == PartEvent(ev, pieces, chunkID, n - 1);
      AddedPiece(chunkID, pieces, n - 1);
      StepPart(Run(s, CoreWire(id, wire[..n - 1])), id, wire[n - 1]);
    }
  }

  lemma {:induction false} AllPartsComplete(ev: StreamEvent, size: nat, chunkID: ChunkId)
    requires 0 < size
    ensures var pieces := Pieces(ev.content, size);
            && Completed(BufferAt(chunkID, pieces, |pieces|), chunkID) == Ok(ev.content)
            && BufferAt(chunkID, pieces, |pieces|) - {chunkID} == map[]
  {
    var pieces := Pieces(ev.content, size);
    AllPiecesComplete(chunkID, pieces);
    JoinPieces(ev.content, size);
  }

  lemma {:induction false} AllPiecesComplete(chunkID: ChunkId, pieces: seq<string>)
    requires pieces != []
    ensures var table := BufferAt(chunkID, pieces, |pieces|);
            Completed(table, chunkID) == Ok(Join(pieces)) && table - {chunkID} == map[]
  {
    var n := |pieces|;
    assert FirstPieces(pieces, n).Keys == IndexRange(n);
    CompletedExactly(BufferAt(chunkID, pieces, n), chunkID);
    PieceAtIs(FirstPieces(pieces, n), pieces, n);
    Whole(pieces);
  }

  /** The client between two events: it waits for a line, holds no parts, and the id it would give to an
      event without one is the last it gave. */
  predicate Between(t: ClientState, last: string) {
    t.phase == Reading && t.pending == map[] && t.lastID == last && t.pendingID == last
  }

  /** What one whole event does to the client. */
  ghost predicate EmitsOnce(s: ClientState, t: ClientState, ev: ClientEvent) {
    Between(t, ev.id) && t.emitted == s.emitted + [ev]
  }

  /** The final wire event of a split result, when all its parts are there. */
  lemma {:induction false} StepFinal(s: ClientState, id: nat, ev: StreamEvent, chunkID: ChunkId)
    requires s.phase == Reading && Completed(s.pending, chunkID) == Ok(ev.content) && s.pending - {chunkID} == map[]
    ensures EmitsOnce(s, Step(Step(s, IdLine(Itoa(id))), DataLine(Marshal(FinalEvent(ev, chunkID)))),
                      ToolResultEvent(ev.toolName, ev.content).(id := Itoa(id)))
  {
  }

  lemma {:induction false} ChunkedEvent(s: ClientState, id: nat, ev: StreamEvent, size: nat, chunkID: ChunkId)
    requires 0 < size
    requires s.phase == Reading && s.pending == map[]
    ensures EmitsOnce(s, Run(s, CoreWire(id, Chunked(ev, size, chunkID))),
                      ToolResultEvent(ev.toolName, ev.content).(id := Itoa(id)))
  {
    var wire, n := Chunked(ev, size, chunkID), |Pieces(ev.content, size)|;
    PartsRun(s, id, ev, size, chunkID, n);
    assert wire[..n + 1] == wire;
    RunWire(s, id, wire, n);
    AllPartsComplete(ev, size, chunkID);
    StepFinal(Run(s, CoreWire(id, wire[..n])), id, ev, chunkID);
  }

  lemma {:induction false} UnsplitEvent(s: ClientState, id: nat, ev: StreamEvent)
    requires Logical(ev)
    requires s.phase == Reading && s.pending == map[]
    ensures EmitsOnce(s, Run(s, CoreWire(id, [ev])),
                      (if ev.kind == ToolResult then ToolResultEvent(ev.toolName, ev.content)
                       else PlainEvent(ev)).(id := Itoa(id)))
  {
    assert [ev][..0] == [] && [ev][..1] == [ev];
    RunWire(s, id, [ev], 0);
  }

  /** A whole event is emitted once, with its id, whether it was split or not. */
  lemma {:induction false} WholeEvent(s: ClientState, turn: Turn, log: seq<StreamEvent>, enc: Encoder, i: nat)
    requires i < |log| && Logical(log[i])
    requires SplitAt(enc, i, Stamp(turn, log[i])).Ok?
    requires s.phase == Reading && s.pending == map[]
    ensures EmitsOnce(s, Run(s, CoreWire(i, SplitAt(enc, i, Stamp(turn, log[i])).value)), View(turn, log, i))
  {
    var ev := Stamp(turn, log[i]);
    if SplitAt(enc, i, ev).value == [ev] {
      UnsplitEvent(s, i, ev);
    } else {
      var size := SplitFromShape(ev, DEFAULT_SSE_CHUNK_CONTENT_BYTES, DEFAULT_MAX_SSE_DATA_LINE_BYTES, enc.json,
                                 enc.ids(i));
      ChunkedEvent(s, i, ev, size, enc.ids(i)(size));
    }
  }

  /** A cut event, even between its chunks, emits nothing and does not advance the last id. */
  lemma {:induction false} CutEvent(s: ClientState, turn: Turn, log: seq<StreamEvent>, enc: Encoder, i: nat, m: nat)
    requires i < |log| && Logical(log[i])
    requires SplitAt(enc, i, Stamp(turn, log[i])).Ok?
    requires s.phase == Reading && s.pending == map[]
    requires m < 2 * |SplitAt(enc, i, Stamp(turn, log[i])).value|
    ensures var t := Run(s, CoreWire(i, SplitAt(enc, i, Stamp(turn, log[i])).value)[..m]);
            t.phase == Reading && t.emitted == s.emitted && t.lastID == s.lastID
  {
    var ev := Stamp(turn, log[i]);
    var wire := SplitAt(enc, i, ev).value;
    CoreWirePrefix(i, wire, m);
    var whole := CoreWire(i, wire[..m / 2]);
    if wire == [ev] {
      assert wire[..0] == [];
    } else {
      var size := SplitFromShape(ev, DEFAULT_SSE_CHUNK_CONTENT_BYTES, DEFAULT_MAX_SSE_DATA_LINE_BYTES, enc.json,
                                 enc.ids(i));
      PartsRun(s, i, ev, size, enc.ids(i)(size), m / 2);
    }
    if m % 2 == 1 {
      RunAppend(s, whole, [IdLine(Itoa(i))]);
      RunTwo(Run(s, whole), IdLine(Itoa(i)), OtherLine);
    } else {
      assert CoreWire(i, wire)[..m] == whole;
    }
  }

  // ---------------------------------------------------------------- the client on a log

  predicate Writable(turn: Turn, log: seq<StreamEvent>, enc: Encoder, i: nat)
    requires i < |log|
  {
    IsRetryableError(log[i]) || SplitAt(enc, i, Stamp(turn, log[i])).Ok?
  }

  predicate AllWritable(turn: Turn, log: seq<StreamEvent>, enc: Encoder, from: nat, k: nat)
    requires k <= |log|
  {
    forall i :: from <= i < k ==> Writable(turn, log, enc, i)
  }

  function EventCore(turn: Turn, log: seq<StreamEvent>, enc: Encoder, i: nat): seq<Line>
    requires i < |log| && Writable(turn, log, enc, i)
  {
    if IsRetryableError(log[i]) then [] else CoreWire(i, SplitAt(enc, i, Stamp(turn, log[i])).value)
  }

  function Body(turn: Turn, log: seq<StreamEvent>, enc: Encoder, from: nat, k: nat): seq<Line>
    requires k <= |log| && AllWritable(turn, log, enc, from, k)
  {
    if k <= from then [] else Body(turn, log, enc, from, k - 1) + EventCore(turn, log, enc, k - 1)
  }

  lemma {:induction false} EmittedRegroup(a: seq<ClientEvent>, b: seq<ClientEvent>, e: ClientEvent)
    ensures a + b + [e] == a + (b + [e])
  {
  }

  /** A client in step with the log up to `k`, having begun at `from` between events as `s`. */
  ghost predicate InStep(t: ClientState, s: ClientState, turn: Turn, log: seq<StreamEvent>, from: nat, k: nat)
    requires k <= |log|
  {
    Between(t, LastID(s.lastID, log, from, k)) && t.emitted == s.emitted + Views(turn, log, from, k)
  }

  lemma {:induction false} WholeEventCore(s: ClientState, turn: Turn, log: seq<StreamEvent>, enc: Encoder, i: nat)
    returns (t: ClientState)
    requires i < |log| && Logical(log[i]) && Writable(turn, log, enc, i) && !IsRetryableError(log[i])
    requires s.phase == Reading && s.pending == map[]
    ensures t == Run(s, EventCore(turn, log, enc, i)) && EmitsOnce(s, t, View(turn, log, i))
  {
    WholeEvent(s, turn, log, enc, i);
    t := Run(s, EventCore(turn, log, enc, i));
  }

  /** A retryable error takes an index and no line. */
  lemma {:induction false} SkipInStep(t: ClientState, s: ClientState, turn: Turn, log: seq<StreamEvent>, from: nat,
                                      k: nat)
    requires from < k <= |log| && IsRetryableError(log[k - 1]) && InStep(t, s, turn, log, from, k - 1)
    ensures InStep(t, s, turn, log, from, k)
  {
  }

  lemma {:induction false} EmissionInStep(t: ClientState, u: ClientState, s: ClientState, turn: Turn,
                                          log: seq<StreamEvent>, from: nat, k: nat)
    requires from < k <= |log| && !IsRetryableError(log[k - 1]) && InStep(t, s, turn, log, from, k - 1)
    requires EmitsOnce(t, u, View(turn, log, k - 1))
    ensures InStep(u, s, turn, log, from, k)
  {
    EmittedRegroup(s.emitted, Views(turn, log, from, k - 1), View(turn, log, k - 1));
  }

  lemma {:induction false} OneMoreInStep(t: ClientState, s: ClientState, turn: Turn, log: seq<StreamEvent>,
                                         enc: Encoder, from: nat, k: nat)
    requires from < k <= |log| && Writable(turn, log, enc, k - 1)
    requires Logical(log[k - 1]) && InStep(t, s, turn, log, from, k - 1)
    ensures InStep(Run(t, EventCore(turn, log, enc, k - 1)), s, turn, log, from, k)
  {
    if IsRetryableError(log[k - 1]) {
      SkippedRun(t, turn, log, enc, k - 1);
      SkipInStep(t, s, turn, log, from, k);
    } else {
      var u := WholeEventCore(t, turn, log, enc, k - 1);
      EmissionInStep(t, u, s, turn, log, from, k);
    }
  }

  lemma {:induction false} SkippedRun(t: ClientState, turn: Turn, log: seq<StreamEvent>, enc: Encoder, i: nat)
    requires i < |log| && IsRetryableError(log[i]) && Writable(turn, log, enc, i)
    ensures Run(t, EventCore(turn, log, enc, i)) == t
  {
    RunNothing(t);
  }

  lemma {:induction false} BodyRunMore(s: ClientState, turn: Turn, log: seq<StreamEvent>, enc: Encoder, from: nat,
                                       k: nat)
    requires from < k <= |log| && AllWritable(turn, log, enc, from, k) && Logical(log[k - 1])
    requires InStep(Run(s, Body(turn, log, enc, from, k - 1)), s, turn, log, from, k - 1)
    ensures InStep(Run(s, Body(turn, log, enc, from, k)), s, turn, log, from, k)
  {
    RunAppend(s, Body(turn, log, enc, from, k - 1), EventCore(turn, log, enc, k - 1));
    OneMoreInStep(Run(s, Body(turn, log, enc, from, k - 1)), s, turn, log, enc, from, k);
  }

  lemma {:induction false} StartInStep(s: ClientState, turn: Turn, log: seq<StreamEvent>, enc: Encoder, from: nat)
    requires from <= |log| && Between(s, s.lastID)
    ensures InStep(Run(s, Body(turn, log, enc, from, from)), s, turn, log, from, from)
  {
    AppendNothing(s.emitted);
    RunNothing(s);
  }

  lemma {:induction false} BodyRun(s: ClientState, turn: Turn, log: seq<StreamEvent>, enc: Encoder, from: nat, k: nat)
    requires from <= k <= |log| && LogicalLog(log) && AllWritable(turn, log, enc, from, k)
    requires Between(s, s.lastID)
    ensures InStep(Run(s, Body(turn, log, enc, from, k)), s, turn, log, from, k)
  {
    if from < k {
      BodyRun(s, turn, log, enc, from, k - 1);
      BodyRunMore(s, turn, log, enc, from, k);
    } else {
      StartInStep(s, turn, log, enc, from);
    }
  }

  /** A cut of the body falls before or inside some event. */
  lemma {:induction false} CutBody(turn: Turn, log: seq<StreamEvent>, enc: Encoder, from: nat, k: nat, p: seq<Line>)
    returns (j: nat, m: nat)
    requires from <= k <= |log| && AllWritable(turn, log, enc, from, k)
    requires p <= Body(turn, log, enc, from, k) && p != Body(turn, log, enc, from, k)
    ensures from <= j < k && m < |EventCore(turn, log, enc, j)|
    ensures p == Body(turn, log, enc, from, j) + EventCore(turn, log, enc, j)[..m]
  {
    var before, last := Body(turn, log, enc, from, k - 1), EventCore(turn, log, enc, k - 1);
    CutOfTwo(p, before, last);
    if |p| < |before| {
      j, m := CutBody(turn, log, enc, from, k - 1, p);
    } else {
      j, m := k - 1, |p| - |before|;
    }
  }

  lemma {:induction false} CutOfTwo(p: seq<Line>, a: seq<Line>, b: seq<Line>)
    requires p <= a + b && p != a + b
    ensures if |p| < |a| then p <= a else |p| - |a| < |b| && p == a + b[..|p| - |a|]
  {
  }

  lemma {:induction false} CutBodyRun(s: ClientState, turn: Turn, log: seq<StreamEvent>, enc: Encoder, from: nat,
                                      k: nat, p: seq<Line>)
    returns (j: nat)
    requires from <= k <= |log| && LogicalLog(log) && AllWritable(turn, log, enc, from, k)
    requires Between(s, s.lastID)
    requires p <= Body(turn, log, enc, from, k)
    ensures from <= j <= k
    ensures p == Body(turn, log, enc, from, k) ==> j == k
    ensures var t := Run(s, p);
            t.emitted == s.emitted + Views(turn, log, from, j) && t.lastID == LastID(s.lastID, log, from, j)
  {
    var m;
    if p == Body(turn, log, enc, from, k) {
      j := k;
      BodyRun(s, turn, log, enc, from, k);
    } else {
      j, m := CutBody(turn, log, enc, from, k, p);
      assert AllWritable(turn, log, enc, from, j);
      BodyRun(s, turn, log, enc, from, j);
      var done := Body(turn, log, enc, from, j);
      RunAppend(s, done, EventCore(turn, log, enc, j)[..m]);
      CutEvent(Run(s, done), turn, log, enc, j, m);
    }
  }

  // ---------------------------------------------------------------- the server's lines

  /** How far into the log an attachment got with whole events. */
  function Reached(log: seq<StreamEvent>, s: AttachState): int {
    match s.outcome
    case Closed => |log|
    case WriteFailed => s.idx - 1
    case _ => s.idx
  }

  function Tail(turn: Turn, log: seq<StreamEvent>, s: AttachState): seq<Line> {
    if s.outcome == Suspended then [DoneLine]
    else if s.outcome == Closed && s.idx == |log| + 1 && s.term.kind.Some?
    then CoreWire(|log|, [SyntheticEvent(turn, s.term)])
    else []
  }

  /** The lines of an attachment: the turn context, whole events of the log, and a tail. */
  ghost predicate Shape(turn: Turn, log: seq<StreamEvent>, enc: Encoder, from: nat, s: AttachState) {
    && from <= Reached(log, s) <= |log|
    && AllWritable(turn, log, enc, from, Reached(log, s))
    && (s.outcome == Closed ==> |log| <= s.idx <= |log| + 1 && s.term.kind in {Some(Events.Result), Some(Error)})
    && Core(s.lines)
       == [DataLine(MetaEvent(turn))] + Body(turn, log, enc, from, Reached(log, s)) + Tail(turn, log, s)
  }

  lemma {:induction false} CloseKeepsShape(turn: Turn, log: seq<StreamEvent>, enc: Encoder, from: nat, s: AttachState)
    requires Shape(turn, log, enc, from, s) && s.outcome == Streaming && s.idx == |log|
    ensures Shape(turn, log, enc, from, CloseStream(turn, log, s))
  {
    var t := CloseStream(turn, log, s);
    EnsuredKind(s.term, log);
    if t.idx == |log| + 1 {
      SyntheticKeepsShape(turn, log, enc, from, s, t);
    }
  }

  lemma {:induction false} SyntheticKeepsShape(turn: Turn, log: seq<StreamEvent>, enc: Encoder, from: nat,
                                               s: AttachState,
                                               t: AttachState)
    requires Shape(turn, log, enc, from, s) && s.outcome == Streaming && s.idx == |log|
    requires t.outcome == Closed && t.idx == |log| + 1 && t.term.kind in {Some(Events.Result), Some(Error)}
    requires t.lines == s.lines + WireLines(Some(|log|), [SyntheticEvent(turn, t.term)])
    ensures Shape(turn, log, enc, from, t)
  {
    CoreAppend(s.lines, WireLines(Some(|log|), [SyntheticEvent(turn, t.term)]));
    CoreOfWireLines(|log|, [SyntheticEvent(turn, t.term)]);
    AppendNothing([DataLine(MetaEvent(turn))] + Body(turn, log, enc, from, |log|));
  }

  lemma {:induction false} WriteKeepsShape(turn: Turn, log: seq<StreamEvent>, enc: Encoder, from: nat, s: AttachState,
                                           t: AttachState)
    requires Shape(turn, log, enc, from, s) && s.outcome == Streaming && s.idx < |log|
    requires Writable(turn, log, enc, s.idx)
    requires t.idx == s.idx + 1 && t.outcome in {Streaming, Suspended}
    requires Core(t.lines) == Core(s.lines) + (EventCore(turn, log, enc, s.idx) + Tail(turn, log, t))
    ensures Shape(turn, log, enc, from, t)
  {
    OneMoreWritable(turn, log, enc, from, s.idx);
    var meta, body := [DataLine(MetaEvent(turn))], Body(turn, log, enc, from, s.idx);
    var core, tail := EventCore(turn, log, enc, s.idx), Tail(turn, log, t);
    AppendNothing(meta + body);
    RegroupLines(meta, body, core, tail);
    BodyMore(turn, log, enc, from, s.idx);
  }

  lemma {:induction false} BodyMore(turn: Turn, log: seq<StreamEvent>, enc: Encoder, from: nat, k: nat)
    requires from <= k < |log| && AllWritable(turn, log, enc, from, k + 1)
    ensures AllWritable(turn, log, enc, from, k) && Writable(turn, log, enc, k)
    ensures Body(turn, log, enc, from, k + 1) == Body(turn, log, enc, from, k) + EventCore(turn, log, enc, k)
  {
  }

  lemma {:induction false} OneMoreWritable(turn: Turn, log: seq<StreamEvent>, enc: Encoder, from: nat, k: nat)
    requires k < |log| && AllWritable(turn, log, enc, from, k) && Writable(turn, log, enc, k)
    ensures AllWritable(turn, log, enc, from, k + 1)
  {
    forall i | from <= i < k + 1
      ensures Writable(turn, log, enc, i)
    {
    }
  }

  lemma {:induction false} Nothing(a: seq<Line>)
    ensures a + ([] + []) == a
  {
  }

  lemma {:induction false} RunNothing(s: ClientState)
    ensures Run(s, []) == s
  {
  }

  lemma {:induction false} RegroupLines(a: seq<Line>, b: seq<Line>, c: seq<Line>, d: seq<Line>)
    ensures a + b + (c + d) == a + (b + c) + d
  {
  }

  lemma {:induction false} PrefixOfTwo(p: seq<Line>, a: seq<Line>, b: seq<Line>)
    requires p <= a + b
    ensures |p| <= |a| ==> p <= a
    ensures |a| <= |p| ==> p == a + p[|a|..] && p[|a|..] <= b
    ensures p == a + b ==> |a| <= |p| && p[|a|..] == b
  {
  }

  lemma {:induction false} CoreOfKeepalive(lines: seq<Line>)
    ensures Core(lines + [OtherLine, OtherLine]) == Core(lines)
  {
    CoreAppend(lines, [OtherLine, OtherLine]);
    assert [OtherLine, OtherLine][..1] == [OtherLine] && [OtherLine][..0] == [];
    assert Core(lines) + [] == Core(lines);
  }

  /** A failed write leaves the lines as they were. */
  lemma {:induction false} FailedWrite(turn: Turn, log: seq<StreamEvent>, enc: Encoder, stop: bool, s: AttachState)
    requires s.outcome == Streaming && s.idx < |log| && !Writable(turn, log, enc, s.idx)
    ensures var t := WriteEvent(turn, enc, stop, s, log[s.idx]);
            t.outcome == WriteFailed && t.idx == s.idx + 1 && t.lines == s.lines
  {
  }

  lemma {:induction false} FailedWriteKeepsShape(turn: Turn, log: seq<StreamEvent>, enc: Encoder, from: nat,
                                                 s: AttachState,
                                                 t: AttachState)
    requires Shape(turn, log, enc, from, s) && s.outcome == Streaming
    requires t.outcome == WriteFailed && t.idx == s.idx + 1 && t.lines == s.lines
    ensures Shape(turn, log, enc, from, t)
  {
  }

  lemma {:induction false} StepKeepsShape(turn: Turn, log: seq<StreamEvent>, enc: Encoder, stop: bool, from: nat,
                                          s: AttachState, pick: Select)
    requires Shape(turn, log, enc, from, s) && s.outcome == Streaming
    ensures Shape(turn, log, enc, from, SelectStep(turn, log, enc, stop, s, pick))
  {
    match pick
    case ClientGone =>
    case Stolen =>
    case DrainElapsed =>
    case Keepalive =>
      CoreOfKeepalive(s.lines);
    case Next =>
      if s.idx < |log| {
        if Writable(turn, log, enc, s.idx) {
          WrittenCore(turn, log, enc, stop, s);
          WriteKeepsShape(turn, log, enc, from, s, WriteEvent(turn, enc, stop, s, log[s.idx]));
        } else {
          FailedWrite(turn, log, enc, stop, s);
          FailedWriteKeepsShape(turn, log, enc, from, s, WriteEvent(turn, enc, stop, s, log[s.idx]));
        }
      } else {
        CloseKeepsShape(turn, log, enc, from, s);
      }
  }

  /** The lines one written event adds. */
  lemma {:induction false} WrittenCore(turn: Turn, log: seq<StreamEvent>, enc: Encoder, stop: bool, s: AttachState)
    requires s.idx < |log| && s.outcome == Streaming
    requires Writable(turn, log, enc, s.idx)
    ensures var t := WriteEvent(turn, enc, stop, s, log[s.idx]);
            && t.idx == s.idx + 1 && t.outcome in {Streaming, Suspended}
            && Core(t.lines) == Core(s.lines) + (EventCore(turn, log, enc, s.idx) + Tail(turn, log, t))
  {
    var t := WriteEvent(turn, enc, stop, s, log[s.idx]);
    var tail := Tail(turn, log, t);
    if IsRetryableError(log[s.idx]) {
      Nothing(Core(s.lines));
    } else {
      var wire := SplitAt(enc, s.idx, Stamp(turn, log[s.idx])).value;
      CoreOfWireLines(s.idx, wire);
      WrittenLines(s.lines, WireLines(Some(s.idx), wire), t.outcome == Suspended);
      assert t.lines == s.lines + WireLines(Some(s.idx), wire)
                        + (if t.outcome == Suspended then [DoneLine, OtherLine] else []);
    }
  }

  lemma {:induction false} WrittenLines(a: seq<Line>, b: seq<Line>, suspended: bool)
    ensures Core(a + b + (if suspended then [DoneLine, OtherLine] else []))
         == Core(a) + (Core(b) + (if suspended then [DoneLine] else []))
  {
    CoreAppend(a, b);
    CoreAppend(a + b, [DoneLine, OtherLine]);
    assert [DoneLine, OtherLine][..1] == [DoneLine] && [DoneLine][..0] == [];
    assert a + b + [] == a + b;
  }

  lemma {:induction false} CoreOfMeta(meta: StreamEvent)
    ensures Core(WireLines(None, [meta])) == [DataLine(Marshal(meta))]
  {
    var line := DataLine(Marshal(meta));
    assert [meta][..0] == [];
    assert WireLines(None, [meta]) == [line, OtherLine];
    assert [line, OtherLine][..1] == [line] && [line][..0] == [];
    assert Core([line]) == [line];
  }

  lemma {:induction false} SelectsShape(turn: Turn, log: seq<StreamEvent>, enc: Encoder, stop: bool, from: nat,
                                        picks: seq<Select>)
    requires from <= |log|
    ensures Shape(turn, log, enc, from, Selects(turn, log, enc, stop, from, picks))
  {
    if picks == [] {
      CoreOfMeta(MetaEvent(turn));
    } else {
      var front := picks[..|picks| - 1];
      SelectsShape(turn, log, enc, stop, from, front);
      var s := Selects(turn, log, enc, stop, from, front);
      if s.outcome == Streaming {
        StepKeepsShape(turn, log, enc, stop, from, s, picks[|picks| - 1]);
      }
    }
  }

  // ---------------------------------------------------------------- one attachment

  /** handleFollow: the attachment, and a completion marker when a terminal was seen or resolved. */
  function FollowLines(s: AttachState): seq<Line> {
    s.lines + (if s.term.kind.Some? then [DoneLine, OtherLine] else [])
  }

  /** How a follow request ends: refused, with the attachment's stream, or with the reader goroutine
      indexing the buffer at a negative start, which panics. */
  datatype Followed = Refused(error: FollowError) | Crashed | Attached

  method HandleFollow(w: ResponseWriter, turn: Turn, log: seq<StreamEvent>, enc: Encoder, query: string, header: string,
                      bufLen: nat, picks: seq<Select>)
    returns (f: Followed)
    requires w.lines == []
    modifies w
    ensures match ParseFollowFrom(query, header, bufLen)
            case Err(e) => f == Refused(e) && w.lines == []
            case Ok(from) =>
              if from < 0 then f == Crashed
              else f == Attached && w.lines == FollowLines(Selects(turn, log, enc, true, from, picks))
  {
    var parsed := ParseFollowFrom(query, header, bufLen);
    if parsed.Err? {
      return Refused(parsed.error);
    }
    if parsed.value < 0 {
      return Crashed;
    }
    var s := w.AttachSSE(turn, log, enc, parsed.value, true, picks);
    if s.term.kind.Some? {
      w.lines := w.lines + [DoneLine, OtherLine];
    }
    return Attached;
  }

  /** One connection: its encoder, its select choices, how many lines arrive before the cut, and how many
      events the buffer holds when it is made. */
  datatype Connection = Connection(enc: Encoder, picks: seq<Select>, cut: nat, bufLen: nat)

  function Received(turn: Turn, log: seq<StreamEvent>, from: nat, c: Connection): seq<Line> {
    var lines := FollowLines(Selects(turn, log, c.enc, true, from, c.picks));
    lines[..if c.cut < |lines| then c.cut else |lines|]
  }

  /** What the client makes of one connection. */
  function Read(turn: Turn, log: seq<StreamEvent>, from: nat, c: Connection): ClientState {
    Run(START, Received(turn, log, from, c))
  }

  function Identified(events: seq<ClientEvent>): seq<ClientEvent> {
    if events == [] then []
    else
      var front, last := Identified(events[..|events| - 1]), events[|events| - 1];
      if last.id == "" then front else front + [last]
  }

  lemma {:induction false} IdentifiedAfterMeta(meta: ClientEvent, events: seq<ClientEvent>)
    requires meta.id == "" && forall i :: 0 <= i < |events| ==> events[i].id != ""
    ensures Identified([meta] + events) == events
  {
    if events == [] {
      assert [meta] + events == [meta];
      assert [meta][..0] == [];
    } else {
      assert ([meta] + events)[..|events|] == [meta] + events[..|events| - 1];
      IdentifiedAfterMeta(meta, events[..|events| - 1]);
    }
  }

  lemma {:induction false} ViewsHaveIds(turn: Turn, log: seq<StreamEvent>, from: nat, k: nat)
    requires k <= |log|
    ensures forall i :: 0 <= i < |Views(turn, log, from, k)| ==> Views(turn, log, from, k)[i].id != ""
  {
    if from < k {
      ViewsHaveIds(turn, log, from, k - 1);
    }
  }

  function SyntheticView(turn: Turn, log: seq<StreamEvent>, term: StreamTerminal): ClientEvent
    requires term.kind.Some?
  {
    PlainEvent(SyntheticEvent(turn, term)).(id := Itoa(|log|))
  }

  /** After the turn context line. */
  function Opened(turn: Turn): ClientState {
    Step(START, DataLine(MetaEvent(turn)))
  }

  lemma {:induction false} OpenedIsFresh(turn: Turn)
    ensures var s := Opened(turn);
            Between(s, "") && s.emitted == [PlainEvent(MetaEvent(turn))]
  {
    assert [] + [PlainEvent(MetaEvent(turn))] == [PlainEvent(MetaEvent(turn))];
  }

  lemma {:induction false} DonesRun(s: ClientState, p: seq<Line>)
    requires forall i :: 0 <= i < |p| ==> p[i] == DoneLine
    ensures Run(s, p).emitted == s.emitted && Run(s, p).lastID == s.lastID
  {
    if p != [] {
      DonesRun(s, p[..|p| - 1]);
    }
  }

  predicate SentSynthetic(log: seq<StreamEvent>, end: AttachState) {
    end.outcome == Closed && end.idx == |log| + 1 && end.term.kind.Some?
  }

  /** The tail of a follow stream: a synthetic terminal or nothing, then completion markers. */
  function FollowTail(turn: Turn, log: seq<StreamEvent>, end: AttachState): seq<Line> {
    Tail(turn, log, end) + (if end.term.kind.Some? then [DoneLine] else [])
  }

  lemma {:induction false} CoreOfFollowLines(turn: Turn, log: seq<StreamEvent>, enc: Encoder, from: nat,
                                             end: AttachState)
    requires Shape(turn, log, enc, from, end)
    ensures Core(FollowLines(end))
         == [DataLine(MetaEvent(turn))] + (Body(turn, log, enc, from, Reached(log, end)) + FollowTail(turn, log, end))
  {
    CoreOfMarker(end.lines, end.term.kind.Some?);
    RegroupFour([DataLine(MetaEvent(turn))], Body(turn, log, enc, from, Reached(log, end)), Tail(turn, log, end),
                if end.term.kind.Some? then [DoneLine] else []);
  }

  lemma {:induction false} CoreOfMarker(lines: seq<Line>, marked: bool)
    ensures Core(lines + (if marked then [DoneLine, OtherLine] else []))
         == Core(lines) + (if marked then [DoneLine] else [])
  {
    CoreAppend(lines, if marked then [DoneLine, OtherLine] else []);
    assert [DoneLine, OtherLine][..1] == [DoneLine] && [DoneLine][..0] == [];
  }

  lemma {:induction false} RegroupFour(a: seq<Line>, b: seq<Line>, c: seq<Line>, d: seq<Line>)
    ensures a + b + c + d == a + (b + (c + d))
  {
  }

  /** A cut tail adds at most the synthetic terminal. */
  lemma {:induction false} TailRun(s: ClientState, turn: Turn, log: seq<StreamEvent>, end: AttachState, p: seq<Line>)
    returns (synthetic: bool)
    requires s.phase == Reading && s.pending == map[]
    requires end.outcome == Closed ==> end.term.kind in {Some(Events.Result), Some(Error)}
    requires p <= FollowTail(turn, log, end)
    ensures synthetic ==> SentSynthetic(log, end)
    ensures |Tail(turn, log, end)| <= |p| ==> synthetic == SentSynthetic(log, end)
    ensures Run(s, p).emitted == s.emitted + (if synthetic then [SyntheticView(turn, log, end.term)] else [])
    ensures Run(s, p).lastID == if synthetic then Itoa(|log|) else s.lastID
  {
    synthetic := SentSynthetic(log, end) && 2 <= |p|;
    if !SentSynthetic(log, end) {
      DonesRun(s, p);
    } else {
      SyntheticRun(s, |log|, SyntheticEvent(turn, end.term), p);
    }
  }

  /** The lines of a synthetic terminal and the completion mark, cut anywhere. */
  lemma {:induction false} SyntheticRun(s: ClientState, id: nat, ev: StreamEvent, p: seq<Line>)
    requires s.phase == Reading && s.pending == map[] && Logical(ev) && ev.kind != ToolResult
    requires p <= CoreWire(id, [ev]) + [DoneLine]
    ensures Run(s, p).emitted == s.emitted + (if 2 <= |p| then [PlainEvent(ev).(id := Itoa(id))] else [])
    ensures Run(s, p).lastID == if 2 <= |p| then Itoa(id) else s.lastID
  {
    var wire := CoreWire(id, [ev]);
    assert [ev][..0] == [];
    assert wire == [IdLine(Itoa(id)), DataLine(Marshal(ev))];
    PrefixOfTwo(p, wire, [DoneLine]);
    AppendNothing(s.emitted);
    if 2 <= |p| {
      UnsplitEvent(s, id, ev);
      RunAppend(s, wire, p[2..]);
      DonesRun(Run(s, wire), p[2..]);
    } else if |p| == 1 {
      assert p == [IdLine(Itoa(id))];
      RunTwo(s, IdLine(Itoa(id)), OtherLine);
    }
  }

  /** The client on a cut of an attachment's core lines. */
  lemma {:induction false} CorePrefixRun(s: ClientState, turn: Turn, log: seq<StreamEvent>, enc: Encoder, from: nat,
                                         end: AttachState, p: seq<Line>)
    returns (k: nat, synthetic: bool)
    requires LogicalLog(log) && Shape(turn, log, enc, from, end)
    requires Between(s, s.lastID)
    requires p <= Body(turn, log, enc, from, Reached(log, end)) + FollowTail(turn, log, end)
    ensures from <= k <= |log|
    ensures synthetic ==> k == |log| && SentSynthetic(log, end)
    ensures Run(s, p).emitted == s.emitted + Views(turn, log, from, k)
                                 + (if synthetic then [SyntheticView(turn, log, end.term)] else [])
    ensures Run(s, p).lastID == if synthetic then Itoa(|log|) else LastID(s.lastID, log, from, k)
    ensures |Body(turn, log, enc, from, Reached(log, end)) + Tail(turn, log, end)| <= |p| ==>
              k == Reached(log, end) && synthetic == SentSynthetic(log, end)
  {
    var body, tail := Body(turn, log, enc, from, Reached(log, end)), FollowTail(turn, log, end);
    PrefixOfTwo(p, body, tail);
    if |p| < |body| {
      k := CutBodyRun(s, turn, log, enc, from, Reached(log, end), p);
      synthetic := false;
    } else {
      var q := p[|body|..];
      k := Reached(log, end);
      BodyRun(s, turn, log, enc, from, k);
      RunAppend(s, body, q);
      synthetic := TailRun(Run(s, body), turn, log, end, q);
    }
  }

  /** Whatever the server's select picked and wherever the connection was cut, the events with an id
      that the client emitted are the log from `from` up to some point without retryable errors, in
      order, each once and whole, followed at most by a synthetic terminal once the log is exhausted;
      and the last id names the last of them. An uncut connection delivers all the server reached. */
  lemma {:induction false} ConnectionDelivers(turn: Turn, log: seq<StreamEvent>, from: nat, c: Connection)
    returns (k: nat, synthetic: bool)
    requires from <= |log| && LogicalLog(log)
    ensures from <= k <= |log|
    ensures var end := Selects(turn, log, c.enc, true, from, c.picks);
            && (synthetic ==> k == |log| && SentSynthetic(log, end))
            && Identified(Read(turn, log, from, c).emitted)
               == Views(turn, log, from, k) + (if synthetic then [SyntheticView(turn, log, end.term)] else [])
            && Read(turn, log, from, c).lastID == (if synthetic then Itoa(|log|) else LastViewID(log, from, k))
            && (c.cut >= |FollowLines(end)| ==> k == Reached(log, end) && synthetic == SentSynthetic(log, end))
  {
    var end := Selects(turn, log, c.enc, true, from, c.picks);
    ReceivedCore(turn, log, from, c);
    k, synthetic := OpenedRun(turn, log, c.enc, from, end, Core(Received(turn, log, from, c)));
  }

  /** The core lines of a whole follow stream. */
  ghost function WholeCore(turn: Turn, log: seq<StreamEvent>, enc: Encoder, from: nat, end: AttachState): seq<Line>
    requires Shape(turn, log, enc, from, end)
  {
    [DataLine(MetaEvent(turn))] + (Body(turn, log, enc, from, Reached(log, end)) + FollowTail(turn, log, end))
  }

  lemma {:induction false} ReceivedCore(turn: Turn, log: seq<StreamEvent>, from: nat, c: Connection)
    requires from <= |log|
    ensures var end := Selects(turn, log, c.enc, true, from, c.picks);
            && Shape(turn, log, c.enc, from, end)
            && Core(Received(turn, log, from, c)) <= WholeCore(turn, log, c.enc, from, end)
            && (c.cut >= |FollowLines(end)| ==>
                  Core(Received(turn, log, from, c)) == WholeCore(turn, log, c.enc, from, end))
            && Read(turn, log, from, c) == Run(START, Core(Received(turn, log, from, c)))
  {
    var end := Selects(turn, log, c.enc, true, from, c.picks);
    SelectsShape(turn, log, c.enc, true, from, c.picks);
    CoreOfFollowLines(turn, log, c.enc, from, end);
    var received := Received(turn, log, from, c);
    assert c.cut >= |FollowLines(end)| ==> received == FollowLines(end);
    CoreOfPrefix(FollowLines(end), |received|);
    RunCore(START, received);
  }

  lemma {:induction false} AfterMeta(turn: Turn, p: seq<Line>, rest: seq<Line>)
    requires p != [] && p <= [DataLine(MetaEvent(turn))] + rest
    ensures p[1..] <= rest && Run(START, p) == Run(Opened(turn), p[1..])
    ensures p == [DataLine(MetaEvent(turn))] + rest ==> p[1..] == rest
  {
    var meta := DataLine(MetaEvent(turn));
    PrefixOfTwo(p, [meta], rest);
    RunAppend(START, [meta], p[1..]);
    RunTwo(START, meta, OtherLine);
  }

  lemma {:induction false} OpenedRun(turn: Turn, log: seq<StreamEvent>, enc: Encoder, from: nat, end: AttachState,
                                     p: seq<Line>)
    returns (k: nat, synthetic: bool)
    requires LogicalLog(log) && Shape(turn, log, enc, from, end)
    requires p <= WholeCore(turn, log, enc, from, end)
    ensures from <= k <= |log|
    ensures synthetic ==> k == |log| && SentSynthetic(log, end)
    ensures Identified(Run(START, p).emitted)
         == Views(turn, log, from, k) + (if synthetic then [SyntheticView(turn, log, end.term)] else [])
    ensures Run(START, p).lastID == if synthetic then Itoa(|log|) else LastViewID(log, from, k)
    ensures p == WholeCore(turn, log, enc, from, end) ==> k == Reached(log, end) && synthetic == SentSynthetic(log, end)
  {
    if p == [] {
      k, synthetic := from, false;
      RunNothing(START);
    } else {
      AfterMeta(turn, p, Body(turn, log, enc, from, Reached(log, end)) + FollowTail(turn, log, end));
      OpenedIsFresh(turn);
      k, synthetic := CorePrefixRun(Opened(turn), turn, log, enc, from, end, p[1..]);
      ViewsHaveIds(turn, log, from, k);
      IdentifiedDelivered(turn, Views(turn, log, from, k),
                          if synthetic then [SyntheticView(turn, log, end.term)] else []);
    }
  }

  lemma {:induction false} IdentifiedDelivered(turn: Turn, views: seq<ClientEvent>, last: seq<ClientEvent>)
    requires forall i :: 0 <= i < |views| ==> views[i].id != ""
    requires forall i :: 0 <= i < |last| ==> last[i].id != ""
    ensures Identified(Opened(turn).emitted + views + last) == views + last
  {
    IdentifiedAfterMeta(PlainEvent(MetaEvent(turn)), views + last);
    OpenedIsFresh(turn);
    Regroup(Opened(turn).emitted, views, last);
  }

  // ---------------------------------------------------------------- any number of connections

  /** What a caller holds: the last id it was given, and every event with an id that it was given. */
  datatype Caller = Caller(kept: string, seen: seq<ClientEvent>)

  /** A caller that follows from the id it holds, connection after connection. A refused follow changes
      nothing. */
  function Session(turn: Turn, log: seq<StreamEvent>, start: Caller, cs: seq<Connection>): Caller {
    if cs == [] then start
    else
      var caller := Session(turn, log, start, cs[..|cs| - 1]);
      match ParseFollowFrom(caller.kept, "", cs[|cs| - 1].bufLen)
      case Err(_) => caller
      case Ok(from) =>
        if from < 0 then caller
        else
          var c := Read(turn, log, from, cs[|cs| - 1]);
          Caller(if c.lastID == "" then caller.kept else c.lastID, caller.seen + Identified(c.emitted))
  }

  /** The buffer only grows towards the log: when a connection is made it holds at least the event whose
      id the caller kept, if that is one of the log's. */
  ghost predicate BuffersGrow(turn: Turn, log: seq<StreamEvent>, start: Caller, cs: seq<Connection>) {
    forall i :: 0 <= i < |cs| ==>
      && cs[i].bufLen <= |log|
      && forall n: nat :: n < |log| && Session(turn, log, start, cs[..i]).kept == Itoa(n) ==> n < cs[i].bufLen
  }

  /** What the caller stands at: the log up to an index and a next follow that starts there, or all of it
      with the outcome and nothing left to follow. */
  ghost predicate StandsAt(turn: Turn, log: seq<StreamEvent>, kept: string, seen: seq<ClientEvent>, r: nat,
                           outcome: Option<StreamTerminal>)
    requires r <= |log|
  {
    match outcome
    case None =>
      && seen == Views(turn, log, 0, r) && FollowsTo(kept, r, |log|)
      && (r > 0 ==> kept == Itoa(r - 1))
    case Some(term) =>
      && r == |log| && term.kind.Some?
      && seen == Views(turn, log, 0, |log|) + [SyntheticView(turn, log, term)]
      && FollowsNowhere(kept, |log|)
  }

  /** Exactly once: after any number of follows, each made while the buffer is still growing or after it is
      complete and cut between any two lines, a caller that stood at some index of the log has been
      given the log's events without retryable errors up to some index, in order, each once and whole,
      and its next follow starts at that index; or it has been given all of them and the outcome, and
      there is nothing left. */
  lemma {:induction false} ExactlyOnceAcrossCuts(turn: Turn, log: seq<StreamEvent>, start: Caller, r0: nat,
                                                 outcome0: Option<StreamTerminal>, cs: seq<Connection>)
    returns (r: nat, outcome: Option<StreamTerminal>)
    requires LogicalLog(log) && r0 <= |log| < MAX_INT && BuffersGrow(turn, log, start, cs)
    requires StandsAt(turn, log, start.kept, start.seen, r0, outcome0)
    ensures r0 <= r <= |log|
    ensures var caller := Session(turn, log, start, cs); StandsAt(turn, log, caller.kept, caller.seen, r, outcome)
  {
    if cs == [] {
      r, outcome := r0, outcome0;
    } else {
      var front, c := cs[..|cs| - 1], cs[|cs| - 1];
      assert BuffersGrow(turn, log, start, front) by {
        forall i | 0 <= i < |front|
          ensures cs[..i] == front[..i]
        {
        }
      }
      r, outcome := ExactlyOnceAcrossCuts(turn, log, start, r0, outcome0, front);
      if outcome == None {
        var kept := Session(turn, log, start, front).kept;
        assert cs[|front|].bufLen <= |log| && cs[..|front|] == front;
        assert r > 0 ==> kept == Itoa(r - 1) && r - 1 < c.bufLen;
        assert ParseFollowFrom(kept, "", c.bufLen) == Ok(r);
        r, outcome := OneMoreConnection(turn, log, kept, r, c);
      }
    }
  }

  /** What one connection more adds, when the caller stands at `from`. */
  lemma {:induction false} OneMoreConnection(turn: Turn, log: seq<StreamEvent>, kept: string, from: nat, c: Connection)
    returns (r: nat, outcome: Option<StreamTerminal>)
    requires LogicalLog(log) && from <= |log| < MAX_INT
    requires StandsAt(turn, log, kept, Views(turn, log, 0, from), from, None)
    ensures from <= r <= |log|
    ensures var got := Read(turn, log, from, c);
            StandsAt(turn, log, if got.lastID == "" then kept else got.lastID,
                     Views(turn, log, 0, from) + Identified(got.emitted), r, outcome)
  {
    var k, synthetic := ConnectionDelivers(turn, log, from, c);
    if synthetic {
      var term := Selects(turn, log, c.enc, true, from, c.picks).term;
      r, outcome := |log|, Some(term);
      AllWithOutcome(turn, log, from, term);
    } else {
      r, outcome := ResumePoint(log, from, k), None;
      PartOfTheLog(turn, log, kept, from, k);
      AppendNothing(Views(turn, log, from, k));
    }
  }

  /** A connection that brought the rest of the log and the outcome. */
  lemma {:induction false} AllWithOutcome(turn: Turn, log: seq<StreamEvent>, from: nat, term: StreamTerminal)
    requires from <= |log| < MAX_INT && term.kind.Some?
    ensures Itoa(|log|) != ""
    ensures StandsAt(turn, log, Itoa(|log|),
                     Views(turn, log, 0, from) + (Views(turn, log, from, |log|) + [SyntheticView(turn, log, term)]),
                     |log|, Some(term))
  {
    ViewsJoin(turn, log, 0, from, |log|);
    PastTheLogFollowsNowhere(log);
    EmittedRegroup(Views(turn, log, 0, from), Views(turn, log, from, |log|), SyntheticView(turn, log, term));
  }

  /** A connection that brought the log up to `k`. */
  lemma {:induction false} PartOfTheLog(turn: Turn, log: seq<StreamEvent>, kept: string, from: nat, k: nat)
    requires from <= k <= |log| < MAX_INT
    requires StandsAt(turn, log, kept, Views(turn, log, 0, from), from, None)
    ensures from <= ResumePoint(log, from, k) <= |log|
    ensures StandsAt(turn, log, if LastViewID(log, from, k) == "" then kept else LastViewID(log, from, k),
                     Views(turn, log, 0, from) + Views(turn, log, from, k), ResumePoint(log, from, k), None)
  {
    ResumePointLosesNothing(turn, log, from, k);
    ViewsJoin(turn, log, 0, from, ResumePoint(log, from, k));
  }

  lemma {:induction false} PastTheLogFollowsNowhere(log: seq<StreamEvent>)
    requires |log| < MAX_INT
    ensures FollowsNowhere(Itoa(|log|), |log|) && Itoa(|log|) != ""
  {
    forall bufLen: nat | bufLen <= |log|
      ensures ParseFollowFrom(Itoa(|log|), "", bufLen) == Err(FromExceedsBuffer)
    {
      FollowRefusesPastBuffer(|log|, "", bufLen);
    }
  }

  /** A keepalive is two lines more that no client notices. */
  lemma {:induction false} KeepaliveIsSilent(turn: Turn, log: seq<StreamEvent>, enc: Encoder, s: AttachState,
                                             t: ClientState)
    requires s.outcome == Streaming
    ensures var next := SelectStep(turn, log, enc, true, s, Keepalive);
            && |next.lines| == |s.lines| + 2 && next == s.(lines := next.lines)
            && Run(t, next.lines) == Run(t, s.lines)
  {
    RunAppend(t, s.lines, [OtherLine, OtherLine]);
    RunTwo(Run(t, s.lines), OtherLine, OtherLine);
  }

  // ---------------------------------------------------------------- field by field

  /** What a caller reads of event `i` of the log, field by field. Of a tool result the stream carries the
      text and the tool's name only; every other event is stamped with the turn's ids, a result also
      with the usage of the turn if there is one. */
  predicate Shows(turn: Turn, log: seq<StreamEvent>, i: nat, e: ClientEvent)
    requires i < |log|
  {
    var ev := log[i];
    && e.id == Itoa(i) && e.kind == ev.kind && e.text == ev.content && e.toolName == ev.toolName
    && (ev.kind == ToolResult ==>
          && e.toolInput == map[] && e.turnID == e.correlationID == e.error == e.inputContent == e.promptID == ""
          && e.choices == [] && e.usage == None)
    && (ev.kind != ToolResult ==>
          && e.toolInput == ev.toolInput && e.turnID == turn.turnID && e.correlationID == turn.correlationID
          && e.usage == (if ev.kind == Events.Result && turn.resultUsage.Some? then turn.resultUsage else ev.usage)
          && e.error == (if ev.kind == Error then ev.content else "")
          && e.inputContent == (if ev.kind == UserInputRequired then ev.content else "")
          && e.promptID == (if ev.kind == UserInputRequired then ev.promptID else "")
          && e.choices == (if ev.kind == UserInputRequired then ev.choices else []))
  }

  /** What it reads of an event that the server makes up. */
  predicate ShowsMadeUp(turn: Turn, kind: Kind, content: string, id: string, e: ClientEvent) {
    e == ClientEvent(kind, content, "", map[], turn.turnID, turn.correlationID, if kind == Error then content else "",
                     if kind == UserInputRequired then content else "", "", [], id, None)
  }

  /** Every event delivered under an id shows one event of the log, the outcome made up shows what the relay
      came to, and the turn context the turn. */
  lemma {:induction false} ViewShows(turn: Turn, log: seq<StreamEvent>, from: nat, k: nat, n: nat)
    returns (i: nat)
    requires k <= |log| && n < |Views(turn, log, from, k)|
    ensures from <= i < k && !IsRetryableError(log[i]) && Shows(turn, log, i, Views(turn, log, from, k)[n])
  {
    if n < |Views(turn, log, from, k - 1)| {
      i := ViewShows(turn, log, from, k - 1, n);
    } else {
      i := k - 1;
    }
  }

  lemma {:induction false} MadeUpShows(turn: Turn, log: seq<StreamEvent>, term: StreamTerminal)
    requires term.kind.Some?
    ensures ShowsMadeUp(turn, term.kind.value, term.content, Itoa(|log|), SyntheticView(turn, log, term))
    ensures ShowsMadeUp(turn, System, "turn context", "", PlainEvent(MetaEvent(turn)))
  {
  }

  /** What a caller reads on one connection, cut anywhere: every event it is given an id for shows one event of
      the log from `from` on that is no retryable error, or in the end what the relay came to. */
  lemma {:induction false} ConnectionShows(turn: Turn, log: seq<StreamEvent>, from: nat, c: Connection, n: nat)
    returns (i: nat)
    requires from <= |log| && LogicalLog(log) && n < |Identified(Read(turn, log, from, c).emitted)|
    ensures from <= i <= |log|
    ensures var e := Identified(Read(turn, log, from, c).emitted)[n];
            if i < |log| then !IsRetryableError(log[i]) && Shows(turn, log, i, e)
            else
              var term := Selects(turn, log, c.enc, true, from, c.picks).term;
              term.kind.Some? && ShowsMadeUp(turn, term.kind.value, term.content, Itoa(|log|), e)
  {
    var k, synthetic := ConnectionDelivers(turn, log, from, c);
    if n < |Views(turn, log, from, k)| {
      i := ViewShows(turn, log, from, k, n);
    } else {
      i := |log|;
      MadeUpShows(turn, log, Selects(turn, log, c.enc, true, from, c.picks).term);
    }
  }

  /** Nothing is left out: a connection from `from` whose stream runs to the end of the relay and is
      read whole brings the caller to the end of the log. */
  lemma {:induction false} UncutConnectionCompletes(turn: Turn, log: seq<StreamEvent>, from: nat, c: Connection)
    requires LogicalLog(log) && from <= |log|
    requires var end := Selects(turn, log, c.enc, true, from, c.picks);
             end.outcome == Closed && c.cut >= |FollowLines(end)|
    ensures var end := Selects(turn, log, c.enc, true, from, c.picks);
            Views(turn, log, 0, from) + Identified(Read(turn, log, from, c).emitted)
            == Views(turn, log, 0, |log|)
               + (if SentSynthetic(log, end) then [SyntheticView(turn, log, end.term)] else [])
  {
    var end := Selects(turn, log, c.enc, true, from, c.picks);
    var k, synthetic := ConnectionDelivers(turn, log, from, c);
    ViewsJoin(turn, log, 0, from, |log|);
    var last := if synthetic then [SyntheticView(turn, log, end.term)] else [];
    assert Views(turn, log, 0, from) + (Views(turn, log, from, |log|) + last) == Views(turn, log, 0, |log|) + last;
  }

  /** When the outcome is synthesised: exactly when the part streamed holds no terminal, unless all
      the relay has to say is a retryable error. So a caller that dropped after a terminal event and
      follows again is told the outcome a second time, under the id one past the buffer. */
  lemma {:induction false} SyntheticExactly(turn: Turn, log: seq<StreamEvent>, enc: Encoder, stop: bool, from: nat,
                                            picks: seq<Select>)
    requires from <= |log|
    requires Selects(turn, log, enc, stop, from, picks).outcome == Closed
    ensures SentSynthetic(log, Selects(turn, log, enc, stop, from, picks)) <==>
            && !HasTerminalIn(log, from, |log|)
            && (HasTerminalIn(log, 0, from) || !HasRetryableError(log))
  {
    var end := Selects(turn, log, enc, stop, from, picks);
    SelectsEnd(turn, log, enc, stop, from, picks);
    ClosedVerdict(log, from);
    HasTerminalSplits(log);
    assert HasTerminalIn(log, 0, |log|) <==> HasTerminalIn(log, 0, from) || HasTerminalIn(log, from, |log|);
    assert end.term == Ensured(TermAfter(log, from, |log|), log);
  }

  /** The smallest case: a relay holding one result, followed from its id. */
  lemma {:induction false} ResultToldTwice(turn: Turn, result: StreamEvent, enc: Encoder)
    requires result.kind == Events.Result
    ensures SentSynthetic([result], Selects(turn, [result], enc, true, 1, [Next]))
    ensures Selects(turn, [result], enc, true, 1, [Next]).term.kind == Some(Events.Result)
  {
    var log := [result];
    assert [Next][..0] == [];
    assert IsResult(log[0]);
  }
}
