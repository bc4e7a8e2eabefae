/** Several readers of one turn's event log feed one aggregator and persist its record
    (agentservice/handler_usage.go): the outcome does not depend on how they interleave. */
module UsageRuns {
  import opened Wrappers
  import opened Seqs
  import opened Events
  import opened Usage

  predicate EndsTurn(ev: StreamEvent) {
    ev.kind == Events.Result || IsFinalError(ev)
  }

  /** ApplyModelAttribution. */
  function Attributed(u: TokenUsage, model: string): TokenUsage {
    if u.model != "" then (if u.modelSource == "" then u.(modelSource := "agent") else u)
    else if model != "" then u.(model := model, modelSource := "tern_session")
    else u
  }

  /** What attribution changes: a model that is missing is the session's, if it has one, and the source of the
      model is told where it was not; nothing else, and nothing the second time. */
  lemma {:induction false} AttributionExactly(u: TokenUsage, model: string)
    ensures var r := Attributed(u, model);
            && r == u.(model := r.model, modelSource := r.modelSource)
            && r.model == (if u.model == "" then model else u.model)
            && r.modelSource == (if r.model == "" then u.modelSource
                                 else if u.model == "" then "tern_session"
                                 else if u.modelSource == "" then "agent"
                                 else u.modelSource)
            && Attributed(r, model) == r
  {
  }

  function AttributedCalls(calls: seq<TokenUsage>, model: string): seq<TokenUsage> {
    seq(|calls|, i requires 0 <= i < |calls| => Attributed(calls[i], model))
  }

  function AttributedRecord(rec: TurnRecord, model: string): TurnRecord {
    rec.(usage := Attributed(rec.usage, model), calls := AttributedCalls(rec.calls, model))
  }

  /** What does not come from the log: the session's model, and what the gateway's meter hands out at
      the n-th time it is asked. */
  datatype World = World(model: string, gateway: nat -> seq<TokenUsage>)

  datatype State = State(agg: Agg, takes: nat, report: Report)

  /** applyUsageSideEffects. The record that Finalize returns shares its calls with the aggregator's own
      copy, so attributing them changes that copy too; the usage value is not shared. */
  function Applied(w: World, st: State, ev: StreamEvent): State {
    var a := Observed(st.agg, ev);
    if !EndsTurn(ev) then st.(agg := a)
    else
      var b := Finalized(Merged(a, w.gateway(st.takes)));
      if b.finalRec == None then State(b, st.takes + 1, st.report)
      else
        var rec := AttributedRecord(b.finalRec.value, w.model);
        State(b.(finalRec := Some(b.finalRec.value.(calls := rec.calls))), st.takes + 1, Appended(st.report, rec))
  }

  /** The event as it then goes on the wire: a result carries the turn's usage. */
  function OnTheWire(w: World, st: State, ev: StreamEvent): StreamEvent {
    var rec := Applied(w, st, ev).agg.finalRec;
    if ev.kind == Events.Result && rec.Some? then ev.(usage := Some(Attributed(rec.value.usage, w.model))) else ev
  }

  method ApplyUsageSideEffects(w: World, agg: TurnUsageAggregator, file: UsageFile, takes: nat, ev: StreamEvent)
    returns (wire: StreamEvent)
    requires file.Loaded().sessionID == file.sessionID
    modifies agg, file
    ensures var st := old(State(agg.View(), takes, file.Loaded()));
            && Applied(w, st, ev).agg == agg.View() && Applied(w, st, ev).report == file.Loaded()
            && wire == OnTheWire(w, st, ev)
    ensures file.Loaded().sessionID == file.sessionID
  {
    wire := ev;
    agg.Observe(ev);
    if ev.kind != Events.Result && !(ev.kind == Error && !ev.retryable) {
      return;
    }
    agg.MergeCalls(w.gateway(takes));
    var got := agg.Finalize();
    if got == None {
      return;
    }
    var rec := AttributedRecord(got.value, w.model);
    agg.finalRec := Some(got.value.(calls := rec.calls));
    if ev.kind == Events.Result {
      wire := wire.(usage := Some(rec.usage));
    }
    var _ := file.AppendTurnUsage(rec);
  }

  // ---------------------------------------------------------------- runs

  predicate Within(visits: seq<nat>, log: seq<StreamEvent>) {
    forall i :: 0 <= i < |visits| ==> visits[i] < |log|
  }

  /** Reading the log's events at the given indices, one after the other. */
  function Run(w: World, log: seq<StreamEvent>, st: State, visits: seq<nat>): State
    requires Within(visits, log)
  {
    if visits == [] then st
    else Applied(w, Run(w, log, st, visits[..|visits| - 1]), log[visits[|visits| - 1]])
  }

  /** One more than the largest index read. */
  function High(visits: seq<nat>): nat {
    if visits == [] then 0
    else
      var before := High(visits[..|visits| - 1]);
      if visits[|visits| - 1] < before then before else visits[|visits| - 1] + 1
  }

  /** No event is read before all events in front of it have been read, by whichever reader. */
  ghost predicate Gapless(visits: seq<nat>) {
    forall p :: 0 <= p < |visits| ==> visits[p] <= High(visits[..p])
  }

  /** Readers that each read in order give such visits: a reader joins at some index, the beginning or a
      resume point, or one of them reads the event it stands at and moves on. */
  datatype Move = Join(start: nat) | Advance(reader: nat)

  function Positions(moves: seq<Move>): seq<nat> {
    if moves == [] then []
    else
      var before := Positions(moves[..|moves| - 1]);
      match moves[|moves| - 1]
      case Join(start) => before + [start]
      case Advance(r) => if r < |before| then before[r := before[r] + 1] else before
  }

  function Visits(moves: seq<Move>): seq<nat> {
    if moves == [] then []
    else
      var at := Positions(moves[..|moves| - 1]);
      match moves[|moves| - 1]
      case Join(_) => Visits(moves[..|moves| - 1])
      case Advance(r) => Visits(moves[..|moves| - 1]) + (if r < |at| then [at[r]] else [])
  }

  /** Nobody joins past an event that no reader has read. */
  ghost predicate JoinsInTime(moves: seq<Move>) {
    forall i :: 0 <= i < |moves| && moves[i].Join? ==> moves[i].start <= High(Visits(moves[..i]))
  }

  lemma {:induction false} GaplessSnoc(visits: seq<nat>, k: nat)
    requires Gapless(visits) && k <= High(visits)
    ensures Gapless(visits + [k])
  {
    var longer := visits + [k];
    forall p | 0 <= p < |longer|
      ensures longer[p] <= High(longer[..p])
    {
      assert longer[..p] == visits[..p];
      if p == |visits| {
        assert visits[..p] == visits;
      }
    }
  }

  lemma {:induction false} HighSnoc(visits: seq<nat>, k: nat)
    ensures High(visits + [k]) == if k < High(visits) then High(visits) else k + 1
  {
    Front(visits, k);
  }

  /** Any number of in-order readers, each joining in time, read without a gap. */
  lemma {:induction false} ReadersAreGapless(moves: seq<Move>)
    requires JoinsInTime(moves)
    ensures Gapless(Visits(moves))
    ensures forall r :: 0 <= r < |Positions(moves)| ==> Positions(moves)[r] <= High(Visits(moves))
  {
    if moves != [] {
      var front, last := moves[..|moves| - 1], moves[|moves| - 1];
      assert JoinsInTime(front) by {
        forall i | 0 <= i < |front| && front[i].Join?
          ensures front[i].start <= High(Visits(front[..i]))
        {
          assert moves[i].Join? && moves[..i] == front[..i];
        }
      }
      ReadersAreGapless(front);
      var at := Positions(front);
      match last {
        case Join(start) =>
          assert moves[|front|].Join?;
        case Advance(r) =>
          if r < |at| {
            GaplessSnoc(Visits(front), at[r]);
            HighSnoc(Visits(front), at[r]);
          } else {
            assert Visits(moves) == Visits(front);
          }
      }
    }
  }

  // ---------------------------------------------------------------- a single pass

  /** The index of the first event that ends the turn, or the length. */
  function FirstEnd(log: seq<StreamEvent>): (t: nat)
    ensures t <= |log| && (t < |log| ==> EndsTurn(log[t]))
    ensures forall i :: 0 <= i < t ==> !EndsTurn(log[i])
  {
    if log == [] || EndsTurn(log[0]) then 0 else 1 + FirstEnd(log[1..])
  }

  function Collected(turnID: string, log: seq<StreamEvent>): Agg {
    if log == [] then NewAgg(turnID) else Observed(Collected(turnID, log[..|log| - 1]), log[|log| - 1])
  }

  /** The turn's record, from the log up to its first end and the calls of the gateway. */
  function RecordOf(turnID: string, upToEnd: seq<StreamEvent>, gateway: seq<TokenUsage>): Option<TurnRecord> {
    FinalRecord(Merged(Collected(turnID, upToEnd), gateway))
  }

  function ReportOf(rep: Report, rec: Option<TurnRecord>, model: string): Report {
    if rec == None then rep else Appended(rep, AttributedRecord(rec.value, model))
  }

  function SettledRecord(rec: Option<TurnRecord>, model: string): Option<TurnRecord> {
    if rec == None then None else Some(rec.value.(calls := AttributedCalls(rec.value.calls, model)))
  }

  /** The state from the first end on. */
  ghost predicate Settled(st: State, rep: Report, rec: Option<TurnRecord>, model: string) {
    st.agg.finalized && st.agg.finalRec == SettledRecord(rec, model) && st.report == ReportOf(rep, rec, model)
  }

  // ---------------------------------------------------------------- what a single pass collects

  ghost predicate Reports(log: seq<StreamEvent>, i: int, callID: string) {
    0 <= i < |log| && log[i].usage.Some? && log[i].usage.value.callID == callID
  }

  /** Event number `i` is the first to report its call. */
  ghost predicate FirstReport(log: seq<StreamEvent>, i: int) {
    && 0 <= i < |log| && log[i].usage.Some? && log[i].usage.value.callID != ""
    && forall j :: 0 <= j < i ==> !Reports(log, j, log[i].usage.value.callID)
  }

  ghost function FirstReports(log: seq<StreamEvent>, n: nat): seq<TokenUsage>
    requires n <= |log|
  {
    if n == 0 then []
    else FirstReports(log, n - 1) + (if FirstReport(log, n - 1) then [log[n - 1].usage.value] else [])
  }

  predicate IsCount(ev: StreamEvent) {
    ev.usage.Some? && ev.usage.value.callID == "" && ev.usage.value.source == CODEX_TOKEN_COUNT
  }

  /** The first token count without a call id. */
  function FirstCount(log: seq<StreamEvent>): Option<TokenUsage> {
    if log == [] then None else if IsCount(log[0]) then log[0].usage else FirstCount(log[1..])
  }

  lemma {:induction false} FirstCountSnoc(log: seq<StreamEvent>, ev: StreamEvent)
    ensures FirstCount(log + [ev]) ==
            if FirstCount(log).Some? then FirstCount(log) else if IsCount(ev) then ev.usage else None
  {
    if log != [] {
      FirstCountSnoc(log[1..], ev);
      assert (log + [ev])[1..] == log[1..] + [ev];
    } else {
      assert (log + [ev])[1..] == [];
    }
  }

  ghost predicate Reported(log: seq<StreamEvent>, id: string) {
    exists i :: Reports(log, i, id)
  }

  lemma {:induction false} ReportedLater(log: seq<StreamEvent>, id: string)
    requires log != []
    ensures Reported(log, id) <==> Reported(log[..|log| - 1], id) || Reports(log, |log| - 1, id)
  {
    var front := log[..|log| - 1];
    if Reported(front, id) {
      var i :| Reports(front, i, id);
      assert Reports(log, i, id);
    }
    if Reported(log, id) {
      var i :| Reports(log, i, id);
      assert i < |front| ==> Reports(front, i, id);
    }
  }

  lemma {:induction false} SeenMeans(turnID: string, log: seq<StreamEvent>, id: string)
    ensures id in Collected(turnID, log).seen <==> id != "" && Reported(log, id)
  {
    if log != [] {
      var n := |log| - 1;
      SeenMeans(turnID, log[..n], id);
      ReportedLater(log, id);
    }
  }

  lemma {:induction false} FirstReportsPrefix(log: seq<StreamEvent>, n: nat, m: nat)
    requires m <= n <= |log|
    ensures FirstReports(log[..n], m) == FirstReports(log, m)
  {
    if m > 0 {
      FirstReportsPrefix(log, n, m - 1);
      forall j, id
        ensures j < n ==> (Reports(log[..n], j, id) <==> Reports(log, j, id))
      {
      }
      assert FirstReport(log[..n], m - 1) <==> FirstReport(log, m - 1);
    }
  }

  lemma {:induction false} FirstReportAt(log: seq<StreamEvent>, n: nat, id: string)
    requires Reports(log, n, id)
    ensures FirstReport(log, n) <==> id != "" && !Reported(log[..n], id)
  {
    forall i
      ensures Reports(log[..n], i, id) <==> i < n && Reports(log, i, id)
    {
    }
  }

  /** The calls collected are the first report of each call id, in order, whatever the events. */
  lemma {:induction false} CallsCollected(turnID: string, log: seq<StreamEvent>)
    ensures Collected(turnID, log).calls == FirstReports(log, |log|)
  {
    if log != [] {
      var n := |log| - 1;
      CallsCollected(turnID, log[..n]);
      FirstReportsPrefix(log, n, n);
      if log[n].usage.Some? {
        var id := log[n].usage.value.callID;
        SeenMeans(turnID, log[..n], id);
        FirstReportAt(log, n, id);
      }
    }
  }

  /** Before the end of a turn, the calls collected are the first report of each call id in order, and
      the turn's total is the first token count. */
  lemma {:induction false} CollectedMeans(turnID: string, log: seq<StreamEvent>)
    requires forall i :: 0 <= i < |log| ==> !EndsTurn(log[i])
    ensures Collected(turnID, log).calls == FirstReports(log, |log|)
    ensures Collected(turnID, log).turn == FirstCount(log)
  {
    CallsCollected(turnID, log);
    if log != [] {
      var n := |log| - 1;
      CollectedMeans(turnID, log[..n]);
      FirstCountSnoc(log[..n], log[n]);
      assert log == log[..n] + [log[n]];
    }
  }

  /** A result's own total replaces a token count if its source is trusted, and else only fills a gap. */
  lemma {:induction false} EndMeans(turnID: string, log: seq<StreamEvent>, end: StreamEvent)
    requires (forall i :: 0 <= i < |log| ==> !EndsTurn(log[i])) && EndsTurn(end)
    ensures Collected(turnID, log + [end]).calls == FirstReports(log + [end], |log| + 1)
    ensures var before := FirstCount(log);
            Collected(turnID, log + [end]).turn ==
            if end.usage == None || end.usage.value.callID != "" then before
            else if end.kind == Events.Result && end.usage.value.source in {CLAUDE_RESULT, CODEX_TURN_COMPLETED}
            then end.usage
            else if before.Some? then before
            else if end.kind == Events.Result || IsCount(end) then end.usage
            else None
  {
    CallsCollected(turnID, log + [end]);
    CollectedMeans(turnID, log);
    Front(log, end);
  }

  // ---------------------------------------------------------------- observing again changes nothing

  /** The aggregator has taken account of this event already. */
  predicate Known(a: Agg, ev: StreamEvent) {
    ev.usage.Some? ==>
      if ev.usage.value.callID != "" then ev.usage.value.callID in a.seen
      else ev.usage.value.source == CODEX_TOKEN_COUNT ==> a.turn.Some?
  }

  lemma {:induction false} CollectedKnows(turnID: string, log: seq<StreamEvent>, k: nat)
    requires k < |log| && forall i :: 0 <= i < |log| ==> !EndsTurn(log[i])
    ensures Known(Collected(turnID, log), log[k])
    ensures Observed(Collected(turnID, log), log[k]) == Collected(turnID, log)
  {
    var n := |log| - 1;
    if k < n {
      CollectedKnows(turnID, log[..n], k);
    }
    assert Known(Collected(turnID, log), log[k]);
    assert !EndsTurn(log[k]);
  }

  lemma {:induction false} CollectedOpen(turnID: string, log: seq<StreamEvent>)
    ensures var a := Collected(turnID, log); !a.finalized && a.finalRec == None && a.turnID == turnID && CallsOnce(a)
  {
    if log != [] {
      CollectedOpen(turnID, log[..|log| - 1]);
      ObservedOnce(Collected(turnID, log[..|log| - 1]), log[|log| - 1]);
    }
  }

  // ---------------------------------------------------------------- after the first end

  lemma {:induction false} MergedKeepsFinal(a: Agg, extra: seq<TokenUsage>)
    ensures Merged(a, extra).finalized == a.finalized && Merged(a, extra).finalRec == a.finalRec
  {
    if extra != [] {
      MergedKeepsFinal(a, extra[..|extra| - 1]);
    }
  }

  lemma {:induction false} AttributedTwice(calls: seq<TokenUsage>, model: string)
    ensures AttributedCalls(AttributedCalls(calls, model), model) == AttributedCalls(calls, model)
  {
  }

  lemma {:induction false} SettledRecordAttributed(rec: TurnRecord, model: string)
    ensures AttributedRecord(rec.(calls := AttributedCalls(rec.calls, model)), model) == AttributedRecord(rec, model)
  {
    AttributedTwice(rec.calls, model);
  }

  lemma {:induction false} StaysSettled(w: World, st: State, ev: StreamEvent, rep: Report, rec: Option<TurnRecord>)
    requires Settled(st, rep, rec, w.model)
    ensures Settled(Applied(w, st, ev), rep, rec, w.model)
  {
    FinalStays(w, st, ev);
    if rec.Some? {
      SettledRecordAttributed(rec.value, w.model);
      AppendedTwice(rep, AttributedRecord(rec.value, w.model));
      AttributedTwice(rec.value.calls, w.model);
    }
  }

  /** What an event does once the record is fixed: at most it stores the record once more. */
  lemma {:induction false} FinalStays(w: World, st: State, ev: StreamEvent)
    requires st.agg.finalized
    ensures var t := Applied(w, st, ev);
            && t.agg.finalized
            && (!EndsTurn(ev) || st.agg.finalRec == None ==> t.agg.finalRec == st.agg.finalRec && t.report == st.report)
            && (EndsTurn(ev) && st.agg.finalRec.Some? ==>
                  var rec := AttributedRecord(st.agg.finalRec.value, w.model);
                  && t.agg.finalRec == Some(st.agg.finalRec.value.(calls := rec.calls))
                  && t.report == Appended(st.report, rec))
  {
    var a := Observed(st.agg, ev);
    assert a.finalized && a.finalRec == st.agg.finalRec;
    MergedKeepsFinal(a, w.gateway(st.takes));
    assert Finalized(Merged(a, w.gateway(st.takes))) == Merged(a, w.gateway(st.takes));
  }

  lemma {:induction false} BecomesSettled(w: World, turnID: string, front: seq<StreamEvent>, end: StreamEvent,
                                          rep: Report)
    requires EndsTurn(end)
    ensures Settled(Applied(w, State(Collected(turnID, front), 0, rep), end), rep,
                    RecordOf(turnID, front + [end], w.gateway(0)), w.model)
  {
    Front(front, end);
    var a := Observed(Collected(turnID, front), end);
    assert a == Collected(turnID, front + [end]);
    CollectedOpen(turnID, front + [end]);
    MergedKeepsFinal(a, w.gateway(0));
  }

  // ---------------------------------------------------------------- every interleaving

  /** Where a run stands, whatever the order of the readers. */
  ghost predicate Stands(w: World, log: seq<StreamEvent>, turnID: string, rep: Report, high: nat, st: State)
    requires high <= |log|
  {
    var t := FirstEnd(log);
    if high <= t then st == State(Collected(turnID, log[..high]), 0, rep)
    else Settled(st, rep, RecordOf(turnID, log[..t + 1], w.gateway(0)), w.model)
  }

  lemma {:induction false} OnlyObserves(w: World, st: State, ev: StreamEvent)
    requires !EndsTurn(ev)
    ensures Applied(w, st, ev) == st.(agg := Observed(st.agg, ev))
  {
  }

  lemma {:induction false} CollectsOne(turnID: string, log: seq<StreamEvent>, k: nat)
    requires k < |log|
    ensures Collected(turnID, log[..k + 1]) == Observed(Collected(turnID, log[..k]), log[k])
  {
    OneMore(log, k);
  }

  /** Before the end: an event read again, and the next one read. */
  lemma {:induction false} ReadAgain(w: World, log: seq<StreamEvent>, turnID: string, rep: Report, high: nat, k: nat)
    requires k < high <= FirstEnd(log)
    ensures var st := State(Collected(turnID, log[..high]), 0, rep); Applied(w, st, log[k]) == st
  {
    var st := State(Collected(turnID, log[..high]), 0, rep);
    OnlyObserves(w, st, log[k]);
    CollectedKnows(turnID, log[..high], k);
  }

  lemma {:induction false} ReadNext(w: World, log: seq<StreamEvent>, turnID: string, rep: Report, k: nat)
    requires k < FirstEnd(log)
    ensures Applied(w, State(Collected(turnID, log[..k]), 0, rep), log[k]) ==
            State(Collected(turnID, log[..k + 1]), 0, rep)
  {
    OnlyObserves(w, State(Collected(turnID, log[..k]), 0, rep), log[k]);
    CollectsOne(turnID, log, k);
  }

  lemma {:induction false} ReadEnd(w: World, log: seq<StreamEvent>, turnID: string, rep: Report)
    requires FirstEnd(log) < |log|
    ensures var t := FirstEnd(log);
            Settled(Applied(w, State(Collected(turnID, log[..t]), 0, rep), log[t]), rep,
                    RecordOf(turnID, log[..t + 1], w.gateway(0)), w.model)
  {
    var t := FirstEnd(log);
    assert log[..t] + [log[t]] == log[..t + 1];
    BecomesSettled(w, turnID, log[..t], log[t], rep);
  }

  lemma {:induction false} ReadKeepsStanding(w: World, log: seq<StreamEvent>, turnID: string, rep: Report, high: nat,
                                             st: State, k: nat)
    requires high <= |log| && k <= high && k < |log| && Stands(w, log, turnID, rep, high, st)
    ensures Stands(w, log, turnID, rep, if k < high then high else k + 1, Applied(w, st, log[k]))
  {
    var t := FirstEnd(log);
    if high > t {
      StaysSettled(w, st, log[k], rep, RecordOf(turnID, log[..t + 1], w.gateway(0)));
    } else if k < high {
      ReadAgain(w, log, turnID, rep, high, k);
    } else if k < t {
      ReadNext(w, log, turnID, rep, k);
    } else {
      ReadEnd(w, log, turnID, rep);
    }
  }

  lemma {:induction false} GaplessFront(visits: seq<nat>)
    requires visits != [] && Gapless(visits)
    ensures var n := |visits| - 1; Gapless(visits[..n]) && visits[n] <= High(visits[..n])
  {
    var front := visits[..|visits| - 1];
    forall p | 0 <= p < |front|
      ensures front[p] <= High(front[..p])
    {
      assert front[..p] == visits[..p];
    }
  }

  lemma {:induction false} RunStands(w: World, log: seq<StreamEvent>, turnID: string, rep: Report, visits: seq<nat>)
    requires Gapless(visits) && Within(visits, log)
    ensures High(visits) <= |log|
    ensures Stands(w, log, turnID, rep, High(visits), Run(w, log, State(NewAgg(turnID), 0, rep), visits))
  {
    if visits != [] {
      var n := |visits| - 1;
      GaplessFront(visits);
      RunStands(w, log, turnID, rep, visits[..n]);
      ReadKeepsStanding(w, log, turnID, rep, High(visits[..n]), Run(w, log, State(NewAgg(turnID), 0, rep), visits[..n]),
                        visits[n]);
    }
  }

  /** However many readers there are and however they interleave, as long as no event is read before those
      in front of it: once the first event that ends the turn has been read, the record is that of a
      single pass over the log up to that event with the gateway's first answer, and the session
      report holds it exactly once, however often it was stored. */
  lemma {:induction false} InterleavingDoesNotMatter(w: World, log: seq<StreamEvent>, turnID: string, rep: Report,
                                                     visits: seq<nat>)
    requires Sound(rep) && Gapless(visits) && Within(visits, log) && FirstEnd(log) < High(visits)
    ensures FirstEnd(log) < |log|
    ensures var st := Run(w, log, State(NewAgg(turnID), 0, rep), visits);
            var rec := RecordOf(turnID, log[..FirstEnd(log) + 1], w.gateway(0));
            && st.agg.finalRec == SettledRecord(rec, w.model)
            && st.report == ReportOf(rep, rec, w.model)
            && Sound(st.report)
  {
    RunStands(w, log, turnID, rep, visits);
    var rec := RecordOf(turnID, log[..FirstEnd(log) + 1], w.gateway(0));
    StandsSettled(w, log, turnID, rep, High(visits), Run(w, log, State(NewAgg(turnID), 0, rep), visits), rec);
    ReportOfSound(rep, rec, w.model);
  }

  lemma {:induction false} StandsSettled(w: World, log: seq<StreamEvent>, turnID: string, rep: Report, high: nat,
                                         st: State,
                                         rec: Option<TurnRecord>)
    requires FirstEnd(log) < high <= |log| && Stands(w, log, turnID, rep, high, st)
    requires rec == RecordOf(turnID, log[..FirstEnd(log) + 1], w.gateway(0))
    ensures Settled(st, rep, rec, w.model)
  {
  }

  lemma {:induction false} ReportOfSound(rep: Report, rec: Option<TurnRecord>, model: string)
    requires Sound(rep)
    ensures Sound(ReportOf(rep, rec, model))
  {
    if rec.Some? {
      AppendedSound(rep, AttributedRecord(rec.value, model));
    }
  }

  /** Until then nothing is stored, and the aggregator is that of a single pass. */
  lemma {:induction false} NothingStoredBeforeTheEnd(w: World, log: seq<StreamEvent>, turnID: string, rep: Report,
                                                     visits: seq<nat>)
    requires Gapless(visits) && Within(visits, log) && High(visits) <= FirstEnd(log)
    ensures High(visits) <= |log|
    ensures Run(w, log, State(NewAgg(turnID), 0, rep), visits) ==
            State(Collected(turnID, log[..High(visits)]), 0, rep)
  {
    RunStands(w, log, turnID, rep, visits);
  }

  /** Whichever reader comes to a result event, and when, it puts the same usage on the wire. */
  lemma {:induction false} WireUsageIsTheRecord(w: World, log: seq<StreamEvent>, turnID: string, rep: Report,
                                                visits: seq<nat>, k: nat)
    requires Gapless(visits) && Within(visits, log)
    requires k < |log| && k <= High(visits) && log[k].kind == Events.Result
    ensures FirstEnd(log) <= k
    ensures var st := Run(w, log, State(NewAgg(turnID), 0, rep), visits);
            var rec := RecordOf(turnID, log[..FirstEnd(log) + 1], w.gateway(0));
            OnTheWire(w, st, log[k]) ==
            if rec == None then log[k] else log[k].(usage := Some(Attributed(rec.value.usage, w.model)))
  {
    ResultEndsTurn(log, k);
    var st := Run(w, log, State(NewAgg(turnID), 0, rep), visits);
    RunStands(w, log, turnID, rep, visits);
    ReadSettles(w, log, turnID, rep, High(visits), st, k);
    SettledOnTheWire(w, st, log[k], rep, RecordOf(turnID, log[..FirstEnd(log) + 1], w.gateway(0)));
  }

  lemma {:induction false} ResultEndsTurn(log: seq<StreamEvent>, k: nat)
    requires k < |log| && log[k].kind == Events.Result
    ensures FirstEnd(log) <= k
  {
  }

  /** Reading at or past the first end settles the turn. */
  lemma {:induction false} ReadSettles(w: World, log: seq<StreamEvent>, turnID: string, rep: Report, high: nat,
                                       st: State,
                                       k: nat)
    requires high <= |log| && FirstEnd(log) <= k <= high && k < |log| && Stands(w, log, turnID, rep, high, st)
    ensures Settled(Applied(w, st, log[k]), rep, RecordOf(turnID, log[..FirstEnd(log) + 1], w.gateway(0)), w.model)
  {
    ReadKeepsStanding(w, log, turnID, rep, high, st, k);
    StandsSettled(w, log, turnID, rep, if k < high then high else k + 1, Applied(w, st, log[k]),
                  RecordOf(turnID, log[..FirstEnd(log) + 1], w.gateway(0)));
  }

  lemma {:induction false} SettledOnTheWire(w: World, st: State, ev: StreamEvent, rep: Report, rec: Option<TurnRecord>)
    requires ev.kind == Events.Result && Settled(Applied(w, st, ev), rep, rec, w.model)
    ensures OnTheWire(w, st, ev) ==
            if rec == None then ev else ev.(usage := Some(Attributed(rec.value.usage, w.model)))
  {
  }
}
