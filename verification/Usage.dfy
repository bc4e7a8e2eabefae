/** Token accounting values: sums, the turn aggregator and the session report
    (codingagent/usage.go, agentservice/usage_aggregator.go, agentservice/usage_store.go). */
module Usage {
  import opened Wrappers
  import opened Seqs
  import opened Events
  import opened Decimal

  const CLAUDE_RESULT := "claude_result"
  const CODEX_TURN_COMPLETED := "codex_turn_completed"
  const CODEX_TOKEN_COUNT := "codex_token_count"
  const LLM_GATEWAY := "llmgateway"
  const DERIVED_SESSION_SUM := "derived_session_sum"
  const CONFIDENCE_HIGH := "high"
  const CONFIDENCE_LOW := "low"

  function ZeroUsage(source: string, confidence: string, partial: bool): TokenUsage {
    TokenUsage(0, 0, 0, 0, 0, 0, None, "", "", source, confidence, "", "", partial, false)
  }

  // ---------------------------------------------------------------- sums

  function AddedCost(a: Option<real>, b: Option<real>): Option<real> {
    if b == None then a else if a == None then b else Some(a.value + b.value)
  }

  /** AddUsage. */
  function Added(dst: TokenUsage, src: TokenUsage): TokenUsage {
    dst.(inputTokens := dst.inputTokens + src.inputTokens,
         outputTokens := dst.outputTokens + src.outputTokens,
         cachedInputTokens := dst.cachedInputTokens + src.cachedInputTokens,
         cacheCreationInputTokens := dst.cacheCreationInputTokens + src.cacheCreationInputTokens,
         reasoningOutputTokens := dst.reasoningOutputTokens + src.reasoningOutputTokens,
         totalTokens := dst.totalTokens + (if src.totalTokens > 0 then src.totalTokens else 0),
         totalCost := AddedCost(dst.totalCost, src.totalCost))
  }

  function Sum(zero: TokenUsage, us: seq<TokenUsage>): TokenUsage {
    if us == [] then zero else Added(Sum(zero, us[..|us| - 1]), us[|us| - 1])
  }

  method SumUsages(zero: TokenUsage, us: seq<TokenUsage>) returns (sum: TokenUsage)
    ensures sum == Sum(zero, us)
  {
    sum := zero;
    for i := 0 to |us|
      invariant sum == Sum(zero, us[..i])
    {
      OneMore(us, i);
      sum := Added(sum, us[i]);
    }
    Whole(us);
  }

  // ---------------------------------------------------------------- one turn

  datatype TurnRecord = TurnRecord(turnID: string, usage: TokenUsage, calls: seq<TokenUsage>)

  /** The aggregator's fields; `finalRec` is None while finalOK is false. */
  datatype Agg = Agg(turnID: string, calls: seq<TokenUsage>, seen: set<string>, turn: Option<TokenUsage>,
                     finalized: bool, finalRec: Option<TurnRecord>)

  function NewAgg(turnID: string): Agg {
    Agg(turnID, [], {}, None, false, None)
  }

  function Observed(a: Agg, ev: StreamEvent): Agg {
    if ev.usage == None then a
    else
      var u := ev.usage.value;
      if u.callID != "" then
        if u.callID in a.seen then a else a.(calls := a.calls + [u], seen := a.seen + {u.callID})
      else if ev.kind == Events.Result then
        if u.source == CLAUDE_RESULT || u.source == CODEX_TURN_COMPLETED || a.turn == None
        then a.(turn := Some(u)) else a
      else if u.source == CODEX_TOKEN_COUNT && a.turn == None then a.(turn := Some(u))
      else a
  }

  function GatewayID(n: nat): string {
    "gw-" + Itoa(n)
  }

  /** Gateway call number `i` is added under its own id or a made-up one. */
  function MergedOne(a: Agg, i: nat, u: TokenUsage): Agg {
    var id := if u.callID == "" then GatewayID(|a.calls| + i) else u.callID;
    if id in a.seen then a else a.(calls := a.calls + [u.(callID := id)], seen := a.seen + {id})
  }

  function Merged(a: Agg, extra: seq<TokenUsage>): Agg {
    if extra == [] then a else MergedOne(Merged(a, extra[..|extra| - 1]), |extra| - 1, extra[|extra| - 1])
  }

  function TurnTotal(a: Agg): Option<TokenUsage> {
    if a.turn.Some? then a.turn
    else if a.calls != [] then Some(Sum(ZeroUsage(LLM_GATEWAY, CONFIDENCE_LOW, true), a.calls))
    else None
  }

  /** The record that a first Finalize makes. */
  function FinalRecord(a: Agg): Option<TurnRecord> {
    if TurnTotal(a) == None then None
    else
      var turn := TurnTotal(a).value;
      var sum := Sum(ZeroUsage("", "", false), a.calls);
      var differs := a.calls != [] && (sum.inputTokens != turn.inputTokens || sum.outputTokens != turn.outputTokens);
      var usage := turn.(turnID := a.turnID, callsSumMismatch := turn.callsSumMismatch || differs);
      Some(TurnRecord(a.turnID, usage, a.calls))
  }

  function Finalized(a: Agg): Agg {
    if a.finalized then a else a.(finalized := true, finalRec := FinalRecord(a))
  }

  lemma {:induction false} MergedMore(a: Agg, extra: seq<TokenUsage>, i: nat)
    requires i < |extra|
    ensures Merged(a, extra[..i + 1]) == MergedOne(Merged(a, extra[..i]), i, extra[i])
  {
    OneMore(extra, i);
  }

  class TurnUsageAggregator {
    const turnID: string
    var calls: seq<TokenUsage>
    var seenCall: set<string>
    var turn: Option<TokenUsage>
    var finalized: bool
    var finalRec: Option<TurnRecord>

    function View(): Agg
      reads this
    {
      Agg(turnID, calls, seenCall, turn, finalized, finalRec)
    }

    constructor (turnID: string)
      ensures View() == NewAgg(turnID)
    {
      this.turnID := turnID;
      calls, seenCall, turn, finalized, finalRec := [], {}, None, false, None;
    }

    method Observe(ev: StreamEvent)
      modifies this
      ensures View() == Observed(old(View()), ev)
    {
      if ev.usage == None {
        return;
      }
      var u := ev.usage.value;
      if u.callID != "" {
        if u.callID in seenCall {
          return;
        }
        seenCall := seenCall + {u.callID};
        calls := calls + [u];
        return;
      }
      if ev.kind != Events.Result && u.source != CODEX_TOKEN_COUNT {
        return;
      }
      if ev.kind == Events.Result {
        if u.source == CLAUDE_RESULT || u.source == CODEX_TURN_COMPLETED {
          turn := Some(u);
          return;
        }
        if turn == None {
          turn := Some(u);
        }
        return;
      }
      if turn == None && u.source == CODEX_TOKEN_COUNT {
        turn := Some(u);
      }
    }

    method MergeCalls(extra: seq<TokenUsage>)
      modifies this
      ensures View() == Merged(old(View()), extra)
    {
      for i := 0 to |extra|
        invariant View() == Merged(old(View()), extra[..i])
      {
        MergedMore(old(View()), extra, i);
        MergeCall(i, extra[i]);
      }
      Whole(extra);
    }

    /** The body of that loop. */
    method MergeCall(i: nat, u: TokenUsage)
      modifies this
      ensures View() == MergedOne(old(View()), i, u)
    {
      var id := u.callID;
      if id == "" {
        id := GatewayID(|calls| + i);
      }
      if id in seenCall {
        return;
      }
      seenCall := seenCall + {id};
      calls := calls + [u.(callID := id)];
    }

    method Finalize() returns (r: Option<TurnRecord>)
      modifies this
      ensures View() == Finalized(old(View())) && r == finalRec
    {
      if finalized {
        return finalRec;
      }
      finalized := true;
      var total: TokenUsage;
      if turn.Some? {
        total := turn.value;
      } else if |calls| > 0 {
        total := SumUsages(ZeroUsage(LLM_GATEWAY, CONFIDENCE_LOW, true), calls);
      } else {
        finalRec := None;
        return None;
      }
      total := total.(turnID := turnID);
      if |calls| > 0 {
        var callSum := SumUsages(ZeroUsage("", "", false), calls);
        if callSum.inputTokens != total.inputTokens || callSum.outputTokens != total.outputTokens {
          total := total.(callsSumMismatch := true);
        }
      }
      finalRec := Some(TurnRecord(turnID, total, calls));
      return finalRec;
    }
  }

  // ---------------------------------------------------------------- what a record says

  function Input(u: TokenUsage): int {
    u.inputTokens
  }

  function Output(u: TokenUsage): int {
    u.outputTokens
  }

  function Cached(u: TokenUsage): int {
    u.cachedInputTokens
  }

  function CacheCreation(u: TokenUsage): int {
    u.cacheCreationInputTokens
  }

  function Reasoning(u: TokenUsage): int {
    u.reasoningOutputTokens
  }

  /** A total counts only when it is positive. */
  function PositiveTotal(u: TokenUsage): int {
    if u.totalTokens > 0 then u.totalTokens else 0
  }

  function Cost(u: TokenUsage): real {
    if u.totalCost.Some? then u.totalCost.value else 0.0
  }

  function SumBy(us: seq<TokenUsage>, count: TokenUsage -> int): int {
    if us == [] then 0 else count(us[0]) + SumBy(us[1..], count)
  }

  function CostSum(us: seq<TokenUsage>): real {
    if us == [] then 0.0 else Cost(us[0]) + CostSum(us[1..])
  }

  predicate AnyCost(us: seq<TokenUsage>) {
    exists i :: 0 <= i < |us| && us[i].totalCost.Some?
  }

  /** Each count of `u` is the sum of that count over `us`, and it has a cost exactly when one of them has. */
  predicate TellsSums(u: TokenUsage, us: seq<TokenUsage>) {
    && u.inputTokens == SumBy(us, Input) && u.outputTokens == SumBy(us, Output)
    && u.cachedInputTokens == SumBy(us, Cached) && u.cacheCreationInputTokens == SumBy(us, CacheCreation)
    && u.reasoningOutputTokens == SumBy(us, Reasoning) && u.totalTokens == SumBy(us, PositiveTotal)
    && u.totalCost == if AnyCost(us) then Some(CostSum(us)) else None
  }

  /** What a usage says besides its counts. */
  predicate Labelled(u: TokenUsage, source: string, confidence: string, partial: bool) {
    && u.source == source && u.confidence == confidence && u.isPartial == partial
    && u.model == u.modelSource == u.turnID == u.callID == "" && !u.callsSumMismatch
  }

  lemma {:induction false} SumBySnoc(us: seq<TokenUsage>, u: TokenUsage, count: TokenUsage -> int)
    ensures SumBy(us + [u], count) == SumBy(us, count) + count(u)
  {
    if us != [] {
      SumBySnoc(us[1..], u, count);
      assert (us + [u])[1..] == us[1..] + [u];
    } else {
      assert (us + [u])[1..] == [];
    }
  }

  lemma {:induction false} CostSumSnoc(us: seq<TokenUsage>, u: TokenUsage)
    ensures CostSum(us + [u]) == CostSum(us) + Cost(u)
    ensures AnyCost(us + [u]) <==> AnyCost(us) || u.totalCost.Some?
  {
    if us != [] {
      CostSumSnoc(us[1..], u);
      assert (us + [u])[1..] == us[1..] + [u];
    } else {
      assert (us + [u])[1..] == [];
    }
    if AnyCost(us) {
      var i :| 0 <= i < |us| && us[i].totalCost.Some?;
      assert (us + [u])[i].totalCost.Some?;
    }
    if u.totalCost.Some? {
      assert (us + [u])[|us|].totalCost.Some?;
    }
  }

  lemma {:induction false} NoCost(us: seq<TokenUsage>)
    requires !AnyCost(us)
    ensures CostSum(us) == 0.0
  {
    if us != [] {
      assert forall i :: 0 <= i < |us[1..]| ==> us[1..][i] == us[i + 1];
      NoCost(us[1..]);
    }
  }

  /** Adding up from a zero usage gives all the sums. */
  lemma {:induction false} SumIs(us: seq<TokenUsage>, source: string, confidence: string, partial: bool)
    ensures var s := Sum(ZeroUsage(source, confidence, partial), us);
            TellsSums(s, us) && Labelled(s, source, confidence, partial)
  {
    if us != [] {
      var front, last := us[..|us| - 1], us[|us| - 1];
      SumIs(front, source, confidence, partial);
      FrontAndLast(us);
      SumBySnoc(front, last, Input);
      SumBySnoc(front, last, Output);
      SumBySnoc(front, last, Cached);
      SumBySnoc(front, last, CacheCreation);
      SumBySnoc(front, last, Reasoning);
      SumBySnoc(front, last, PositiveTotal);
      CostSumSnoc(front, last);
      if !AnyCost(front) {
        NoCost(front);
      }
    }
  }

  /** A record exists exactly when there is a turn total or a call. It is the total under the turn's id, or
      else it tells the sums over the calls, marked as partial; and its flag is set exactly when the
      total's own was, or input or output tokens of the calls do not add up to it. */
  lemma {:induction false} RecordMeans(a: Agg)
    ensures FinalRecord(a) == None <==> a.turn == None && a.calls == []
    ensures FinalRecord(a).Some? ==>
              var rec := FinalRecord(a).value;
              && rec.turnID == rec.usage.turnID == a.turnID && rec.calls == a.calls
              && (a.turn.Some? ==>
                    var t := a.turn.value;
                    && rec.usage == t.(turnID := a.turnID, callsSumMismatch := rec.usage.callsSumMismatch)
                    && (rec.usage.callsSumMismatch <==>
                          || t.callsSumMismatch
                          || (a.calls != []
                              && !(SumBy(a.calls, Input) == t.inputTokens
                                   && SumBy(a.calls, Output) == t.outputTokens))))
              && (a.turn == None ==>
                    TellsSums(rec.usage, a.calls)
                    && Labelled(rec.usage.(turnID := ""), LLM_GATEWAY, CONFIDENCE_LOW, true))
  {
    SumIs(a.calls, LLM_GATEWAY, CONFIDENCE_LOW, true);
    SumIs(a.calls, "", "", false);
  }

  // ---------------------------------------------------------------- calls are counted once

  ghost predicate Listed(calls: seq<TokenUsage>, id: string) {
    exists i :: 0 <= i < |calls| && calls[i].callID == id
  }

  ghost predicate Once(calls: seq<TokenUsage>, seen: set<string>) {
    && (forall i :: 0 <= i < |calls| ==> calls[i].callID != "" && calls[i].callID in seen)
    && (forall id <- seen :: Listed(calls, id))
    && (forall i, j :: 0 <= i < j < |calls| ==> calls[i].callID != calls[j].callID)
  }

  /** No call id is blank or listed twice, and the ids seen are those listed. */
  ghost predicate CallsOnce(a: Agg) {
    Once(a.calls, a.seen)
  }

  lemma {:induction false} CallAddedOnce(calls: seq<TokenUsage>, seen: set<string>, u: TokenUsage)
    requires Once(calls, seen) && u.callID != "" && u.callID !in seen
    ensures Once(calls + [u], seen + {u.callID})
  {
    forall id | id in seen + {u.callID}
      ensures Listed(calls + [u], id)
    {
      if id in seen {
        var i :| 0 <= i < |calls| && calls[i].callID == id;
        assert (calls + [u])[i].callID == id;
      } else {
        assert (calls + [u])[|calls|].callID == id;
      }
    }
  }

  lemma {:induction false} ObservedOnce(a: Agg, ev: StreamEvent)
    requires CallsOnce(a)
    ensures CallsOnce(Observed(a, ev))
  {
    if ev.usage.Some? && ev.usage.value.callID != "" && ev.usage.value.callID !in a.seen {
      CallAddedOnce(a.calls, a.seen, ev.usage.value);
    }
  }

  lemma {:induction false} MergedOnce(a: Agg, extra: seq<TokenUsage>)
    requires CallsOnce(a)
    ensures CallsOnce(Merged(a, extra))
  {
    if extra != [] {
      var i := |extra| - 1;
      MergedOnce(a, extra[..i]);
      MergedOneOnce(Merged(a, extra[..i]), i, extra[i]);
    }
  }

  lemma {:induction false} MergedOneOnce(a: Agg, i: nat, u: TokenUsage)
    requires CallsOnce(a)
    ensures CallsOnce(MergedOne(a, i, u))
  {
    var id := if u.callID == "" then GatewayID(|a.calls| + i) else u.callID;
    if id !in a.seen {
      CallAddedOnce(a.calls, a.seen, u.(callID := id));
    }
  }

  lemma {:induction false} GatewayIDInjective(m: nat, n: nat)
    requires GatewayID(m) == GatewayID(n)
    ensures m == n
  {
    assert GatewayID(m)[3..] == Itoa(m) && GatewayID(n)[3..] == Itoa(n);
    DigitsValueOfItoa(m);
    DigitsValueOfItoa(n);
  }

  /** An id that the agent or one of the gateway's calls brought along. */
  ghost predicate Given(a: Agg, extra: seq<TokenUsage>, id: string) {
    id in a.seen || (id != "" && exists j :: 0 <= j < |extra| && extra[j].callID == id)
  }

  ghost predicate MadeUp(id: string, bound: nat) {
    exists m: nat :: m < bound && id == GatewayID(m)
  }

  /** The ids seen after a merge are those given, and made-up ones below a bound. */
  lemma {:induction false} SeenAfterMerge(a: Agg, extra: seq<TokenUsage>, id: string)
    ensures Given(a, extra, id) ==> id in Merged(a, extra).seen
    ensures id in Merged(a, extra).seen ==> Given(a, extra, id) || MadeUp(id, |Merged(a, extra).calls| + |extra|)
  {
    if extra != [] {
      var n := |extra| - 1;
      var front, last := extra[..n], extra[n];
      SeenAfterMerge(a, front, id);
      var b := Merged(a, front);
      assert Given(a, extra, id) <==> Given(a, front, id) || (id != "" && last.callID == id);
      if MadeUp(id, |b.calls| + n) {
        var m: nat :| m < |b.calls| + n && id == GatewayID(m);
        assert m < |Merged(a, extra).calls| + |extra|;
      }
      if last.callID == "" && id == GatewayID(|b.calls| + n) {
        assert |b.calls| + n < |Merged(a, extra).calls| + |extra|;
      }
    }
  }

  /** The id made up for gateway call number `k`. */
  function IDMadeFor(a: Agg, extra: seq<TokenUsage>, k: nat): string
    requires k < |extra|
  {
    GatewayID(|Merged(a, extra[..k]).calls| + k)
  }

  /** Exactly when a gateway call without an id is kept: if and only if the id made up for it is none that
      was given. Ids made up in one merge never collide with each other. */
  lemma {:induction false} BlankCallKeptExactly(a: Agg, extra: seq<TokenUsage>, k: nat)
    requires k < |extra| && extra[k].callID == ""
    ensures var before, after := Merged(a, extra[..k]).calls, Merged(a, extra[..k + 1]).calls;
            var id := IDMadeFor(a, extra, k);
            && (after == before + [extra[k].(callID := id)] <==> !Given(a, extra[..k], id))
            && (after == before <==> Given(a, extra[..k], id))
  {
    var b := Merged(a, extra[..k]);
    var id := IDMadeFor(a, extra, k);
    OneMore(extra, k);
    SeenAfterMerge(a, extra[..k], id);
    if MadeUp(id, |b.calls| + k) {
      var m: nat :| m < |b.calls| + k && id == GatewayID(m);
      GatewayIDInjective(m, |b.calls| + k);
    }
  }

  /** What has been listed stays listed. */
  lemma {:induction false} ListedStays(a: Agg, extra: seq<TokenUsage>, k: nat)
    requires k <= |extra|
    ensures Merged(a, extra[..k]).calls <= Merged(a, extra).calls
    decreases |extra|
  {
    if k == |extra| {
      assert extra[..k] == extra;
    } else {
      var front := extra[..|extra| - 1];
      assert front[..k] == extra[..k];
      ListedStays(a, front, k);
    }
  }

  /** The smallest case in which one is lost: the agent reported a call under an id like the made-up ones. */
  lemma {:induction false} BlankCallLost(turnID: string, u: TokenUsage, v: TokenUsage)
    requires u.callID == GatewayID(1) && v.callID == ""
    ensures Merged(NewAgg(turnID).(calls := [u], seen := {u.callID}), [v]).calls == [u]
  {
    var a := NewAgg(turnID).(calls := [u], seen := {u.callID});
    assert [v][..0] == [] && [v][..1] == [v];
    BlankCallKeptExactly(a, [v], 0);
  }

  // ---------------------------------------------------------------- the session report

  datatype Report = Report(sessionID: string, usage: TokenUsage, turns: seq<TurnRecord>)

  function Usages(turns: seq<TurnRecord>): (us: seq<TokenUsage>)
    ensures |us| == |turns| && forall i :: 0 <= i < |us| ==> us[i] == turns[i].usage
  {
    if turns == [] then [] else Usages(turns[..|turns| - 1]) + [turns[|turns| - 1].usage]
  }

  /** SumTurnUsage. */
  function SumTurns(turns: seq<TurnRecord>): TokenUsage {
    Sum(ZeroUsage(DERIVED_SESSION_SUM, CONFIDENCE_HIGH, false), Usages(turns))
  }

  method SumTurnUsage(turns: seq<TurnRecord>) returns (sum: TokenUsage)
    ensures sum == SumTurns(turns)
  {
    sum := ZeroUsage(DERIVED_SESSION_SUM, CONFIDENCE_HIGH, false);
    for i := 0 to |turns|
      invariant sum == SumTurns(turns[..i])
    {
      OneMore(turns, i);
      assert Usages(turns[..i + 1])[..i] == Usages(turns[..i]);
      sum := Added(sum, turns[i].usage);
    }
    Whole(turns);
  }

  /** The position of a turn, or the number of turns. */
  function IndexOf(turns: seq<TurnRecord>, id: string): (i: nat)
    ensures i <= |turns| && (i < |turns| ==> turns[i].turnID == id)
    ensures forall j :: 0 <= j < i ==> turns[j].turnID != id
  {
    if turns == [] || turns[0].turnID == id then 0 else 1 + IndexOf(turns[1..], id)
  }

  function Placed(turns: seq<TurnRecord>, turn: TurnRecord): seq<TurnRecord> {
    var i := IndexOf(turns, turn.turnID);
    if i < |turns| then turns[i := turn] else turns + [turn]
  }

  function Appended(rep: Report, turn: TurnRecord): Report {
    var turns := Placed(rep.turns, turn);
    Report(rep.sessionID, SumTurns(turns), turns)
  }

  ghost predicate UniqueTurns(turns: seq<TurnRecord>) {
    forall i, j :: 0 <= i < j < |turns| ==> turns[i].turnID != turns[j].turnID
  }

  /** A report in which every turn appears once and the session's usage tells the sums over the turns. */
  ghost predicate Sound(rep: Report) {
    && UniqueTurns(rep.turns) && TellsSums(rep.usage, Usages(rep.turns))
    && Labelled(rep.usage, DERIVED_SESSION_SUM, CONFIDENCE_HIGH, false)
  }

  lemma {:induction false} PlacedIsUnique(turns: seq<TurnRecord>, turn: TurnRecord)
    requires UniqueTurns(turns)
    ensures UniqueTurns(Placed(turns, turn))
  {
  }

  /** The turn is there, every other turn is still there, and nothing else is. */
  lemma {:induction false} PlacedHas(turns: seq<TurnRecord>, turn: TurnRecord, t: TurnRecord)
    ensures turn in Placed(turns, turn)
    ensures t in turns && t.turnID != turn.turnID ==> t in Placed(turns, turn)
    ensures t in Placed(turns, turn) ==> t == turn || t in turns
  {
    var i := IndexOf(turns, turn.turnID);
    var placed := Placed(turns, turn);
    assert placed[i] == turn;
    if t in turns && t.turnID != turn.turnID {
      var k :| 0 <= k < |turns| && turns[k] == t;
      assert placed[k] == t;
    }
  }

  lemma {:induction false} AppendedSound(rep: Report, turn: TurnRecord)
    requires UniqueTurns(rep.turns)
    ensures Sound(Appended(rep, turn))
    ensures turn in Appended(rep, turn).turns
    ensures forall t <- rep.turns :: t.turnID != turn.turnID ==> t in Appended(rep, turn).turns
    ensures forall t <- Appended(rep, turn).turns :: t == turn || t in rep.turns
  {
    PlacedIsUnique(rep.turns, turn);
    PlacedHas(rep.turns, turn, turn);
    SumIs(Usages(Placed(rep.turns, turn)), DERIVED_SESSION_SUM, CONFIDENCE_HIGH, false);
    forall t
      ensures t in rep.turns && t.turnID != turn.turnID ==> t in Placed(rep.turns, turn)
      ensures t in Placed(rep.turns, turn) ==> t == turn || t in rep.turns
    {
      PlacedHas(rep.turns, turn, t);
    }
  }

  lemma {:induction false} AppendedTwice(rep: Report, turn: TurnRecord)
    ensures Appended(Appended(rep, turn), turn) == Appended(rep, turn)
  {
    var i := IndexOf(rep.turns, turn.turnID);
    var turns := Placed(rep.turns, turn);
    assert turns[i] == turn && forall j :: 0 <= j < i ==> turns[j].turnID != turn.turnID;
    assert IndexOf(turns, turn.turnID) == i;
    assert turns[i := turn] == turns;
  }

  lemma {:induction false} SumByReplaced(us: seq<TokenUsage>, i: nat, u: TokenUsage, count: TokenUsage -> int)
    requires i < |us|
    ensures SumBy(us[i := u], count) == SumBy(us, count) - count(us[i]) + count(u)
  {
    if i > 0 {
      SumByReplaced(us[1..], i - 1, u, count);
      assert us[i := u][1..] == us[1..][i - 1 := u];
    } else {
      assert us[i := u][1..] == us[1..];
    }
  }

  lemma {:induction false} CostSumReplaced(us: seq<TokenUsage>, i: nat, u: TokenUsage)
    requires i < |us|
    ensures CostSum(us[i := u]) == CostSum(us) - Cost(us[i]) + Cost(u)
  {
    if i > 0 {
      CostSumReplaced(us[1..], i - 1, u);
      assert us[i := u][1..] == us[1..][i - 1 := u];
    } else {
      assert us[i := u][1..] == us[1..];
    }
  }

  /** What one more turn adds to a count, or a turn that is stored again changes in it. */
  lemma {:induction false} CountAfterPlacing(turns: seq<TurnRecord>, turn: TurnRecord, count: TokenUsage -> int)
    requires count(ZeroUsage("", "", false)) == 0
    ensures SumBy(Usages(Placed(turns, turn)), count) ==
            SumBy(Usages(turns), count) - count(Replaced(turns, turn)) + count(turn.usage)
  {
    var i := IndexOf(turns, turn.turnID);
    if i < |turns| {
      assert Usages(turns[i := turn]) == Usages(turns)[i := turn.usage];
      SumByReplaced(Usages(turns), i, turn.usage, count);
    } else {
      assert Usages(turns + [turn]) == Usages(turns) + [turn.usage];
      SumBySnoc(Usages(turns), turn.usage, count);
    }
  }

  lemma {:induction false} CostAfterPlacing(turns: seq<TurnRecord>, turn: TurnRecord)
    ensures CostSum(Usages(Placed(turns, turn))) ==
            CostSum(Usages(turns)) - Cost(Replaced(turns, turn)) + Cost(turn.usage)
  {
    var i := IndexOf(turns, turn.turnID);
    if i < |turns| {
      assert Usages(turns[i := turn]) == Usages(turns)[i := turn.usage];
      CostSumReplaced(Usages(turns), i, turn.usage);
    } else {
      assert Usages(turns + [turn]) == Usages(turns) + [turn.usage];
      CostSumSnoc(Usages(turns), turn.usage);
    }
  }

  lemma {:induction false} CostIsSum(u: TokenUsage, us: seq<TokenUsage>)
    requires TellsSums(u, us)
    ensures Cost(u) == CostSum(us)
  {
    if !AnyCost(us) {
      NoCost(us);
    }
  }

  /** What the turn had counted before, if it had been stored. */
  function Replaced(turns: seq<TurnRecord>, turn: TurnRecord): TokenUsage {
    var i := IndexOf(turns, turn.turnID);
    if i < |turns| then turns[i].usage else ZeroUsage("", "", false)
  }

  /** A turn that is stored again replaces what it counted before, and a new one is added, count by count. */
  lemma {:induction false} AppendedCounts(rep: Report, turn: TurnRecord)
    requires Sound(rep)
    ensures var was, now, before := Replaced(rep.turns, turn), Appended(rep, turn).usage, rep.usage;
            && now.inputTokens == before.inputTokens - was.inputTokens + turn.usage.inputTokens
            && now.outputTokens == before.outputTokens - was.outputTokens + turn.usage.outputTokens
            && now.cachedInputTokens == before.cachedInputTokens - was.cachedInputTokens + turn.usage.cachedInputTokens
            && now.cacheCreationInputTokens ==
               before.cacheCreationInputTokens - was.cacheCreationInputTokens + turn.usage.cacheCreationInputTokens
            && now.reasoningOutputTokens ==
               before.reasoningOutputTokens - was.reasoningOutputTokens + turn.usage.reasoningOutputTokens
            && now.totalTokens == before.totalTokens - PositiveTotal(was) + PositiveTotal(turn.usage)
            && Cost(now) == Cost(before) - Cost(was) + Cost(turn.usage)
  {
    AppendedSound(rep, turn);
    CountAfterPlacing(rep.turns, turn, Input);
    CountAfterPlacing(rep.turns, turn, Output);
    CountAfterPlacing(rep.turns, turn, Cached);
    CountAfterPlacing(rep.turns, turn, CacheCreation);
    CountAfterPlacing(rep.turns, turn, Reasoning);
    CountAfterPlacing(rep.turns, turn, PositiveTotal);
    CostAfterPlacing(rep.turns, turn);
    CostIsSum(rep.usage, Usages(rep.turns));
    CostIsSum(Appended(rep, turn).usage, Usages(Placed(rep.turns, turn)));
  }

  /** usage.json of one session. */
  class UsageFile {
    const sessionID: string
    var stored: Option<Report>

    function Loaded(): Report
      reads this
    {
      if stored.Some? then stored.value
      else Report(sessionID, ZeroUsage(DERIVED_SESSION_SUM, CONFIDENCE_HIGH, false), [])
    }

    constructor (sessionID: string)
      ensures this.sessionID == sessionID && stored == None
    {
      this.sessionID := sessionID;
      stored := None;
    }

    method AppendTurnUsage(turn: TurnRecord) returns (sum: TokenUsage)
      modifies this
      ensures stored == Some(Appended(old(Loaded()).(sessionID := sessionID), turn)) && sum == stored.value.usage
    {
      var rep := Loaded();
      var turns := rep.turns;
      var replaced := false;
      ghost var k := IndexOf(turns, turn.turnID);
      var i := 0;
      while i < |turns| && !replaced
        invariant i <= |turns| && (if replaced then i == k + 1 && k < |rep.turns| else i <= k)
        invariant turns == if replaced then rep.turns[k := turn] else rep.turns
      {
        if turns[i].turnID == turn.turnID {
          turns := turns[i := turn];
          replaced := true;
        }
        i := i + 1;
      }
      if !replaced {
        turns := turns + [turn];
      }
      sum := SumTurnUsage(turns);
      stored := Some(Report(sessionID, sum, turns));
    }
  }
}
