/** What every run of the artifact analyzer keeps, and what the flush at the end of a turn completes. */
module ArtifactRuns {
  import opened Wrappers
  import opened Seqs
  import opened Artifacts

  datatype Call =
    | Entry(w: World, session: string, ev: ToolEvent)
    | Flush(w: World, session: string, turn: string, correlation: string, ops: seq<Change>)

  function Applied(st: State, c: Call): State {
    match c
    case Entry(w, session, ev) => Entered(st, w, session, ev)
    case Flush(w, session, turn, correlation, ops) => Flushed(st, w, session, turn, correlation, ops)
  }

  function Run(calls: seq<Call>): State {
    if calls == [] then EMPTY else Applied(Run(calls[..|calls| - 1]), calls[|calls| - 1])
  }

  lemma {:induction false} RunSnoc(calls: seq<Call>, c: Call)
    ensures Run(calls + [c]) == Applied(Run(calls), c)
  {
    Front(calls, c);
  }

  // ---------------------------------------------------------------- claim keys

  predicate Clean(id: string) {
    '\0' !in id
  }

  lemma {:induction false} FirstNul(a: string, x: string, b: string, y: string)
    requires Clean(a) && Clean(b) && a + "\0" + x == b + "\0" + y
    ensures a == b && x == y
  {
    var s, t := a + "\0" + x, b + "\0" + y;
    assert s[|a|] == '\0' && t[|b|] == '\0';
    assert forall i :: 0 <= i < |a| ==> s[i] == a[i];
    assert forall i :: 0 <= i < |b| ==> t[i] == b[i];
    assert |a| == |b|;
    assert s[..|a|] == a && t[..|b|] == b;
    assert s[|a| + 1..] == x && t[|b| + 1..] == y;
  }

  /** Ids without a NUL make the joined key unambiguous. */
  lemma {:induction false} SeenKeyInjective(s: string, t: string, k: string, s': string, t': string, k': string)
    requires Clean(s) && Clean(t) && Clean(s') && Clean(t') && SeenKey(s, t, k) == SeenKey(s', t', k')
    ensures s == s' && t == t' && k == k'
  {
    assert SeenKey(s, t, k) == s + "\0" + (t + "\0" + k);
    assert SeenKey(s', t', k') == s' + "\0" + (t' + "\0" + k');
    FirstNul(s, t + "\0" + k, s', t' + "\0" + k');
    FirstNul(t, k, t', k');
  }

  // ---------------------------------------------------------------- the invariant

  /** The claims are the keys of the structured events saved, and no event follows a structured one with
      the same key. */
  ghost predicate Claimed(claims: set<string>, saved: seq<ArtifactEvent>) {
    && (forall i :: 0 <= i < |saved| && IsTier1(saved[i].toolName) ==> SeenKeyOf(saved[i]) in claims)
    && (forall k <- claims :: exists i :: 0 <= i < |saved| && IsTier1(saved[i].toolName) && SeenKeyOf(saved[i]) == k)
    && (forall i, j :: 0 <= i < j < |saved| && IsTier1(saved[i].toolName) ==>
          SeenKeyOf(saved[i]) != SeenKeyOf(saved[j]))
  }

  lemma {:induction false} ClaimedSnoc(claims: set<string>, saved: seq<ArtifactEvent>, e: ArtifactEvent)
    requires Claimed(claims, saved) && SeenKeyOf(e) !in claims
    ensures Claimed(if IsTier1(e.toolName) then claims + {SeenKeyOf(e)} else claims, saved + [e])
  {
    var after := if IsTier1(e.toolName) then claims + {SeenKeyOf(e)} else claims;
    var all := saved + [e];
    forall k | k in after
      ensures exists i :: 0 <= i < |all| && IsTier1(all[i].toolName) && SeenKeyOf(all[i]) == k
    {
      if k in claims {
        var i :| 0 <= i < |saved| && IsTier1(saved[i].toolName) && SeenKeyOf(saved[i]) == k;
        assert all[i] == saved[i];
      } else {
        assert all[|saved|] == e;
      }
    }
  }

  lemma {:induction false} BuildAllClaimed(claims: set<string>, saved: seq<ArtifactEvent>, w: World, rs: seq<Request>)
    requires Claimed(claims, saved)
    ensures var b := BuildAll(claims, w, rs); Claimed(b.claims, saved + b.events)
  {
    if rs == [] {
      AppendNothing(saved);
    } else {
      var front, last := rs[..|rs| - 1], rs[|rs| - 1];
      BuildAllClaimed(claims, saved, w, front);
      var b := BuildAll(claims, w, front);
      var c := BuildOne(b.claims, w, last);
      if c.events != [] {
        ClaimedSnoc(b.claims, saved + b.events, EventFor(w, last));
        assert saved + (b.events + c.events) == (saved + b.events) + [EventFor(w, last)];
      } else {
        AppendNothing(b.events);
      }
    }
  }

  ghost predicate CleanRequests(rs: seq<Request>) {
    forall i :: 0 <= i < |rs| && IsTier1(rs[i].tool) ==> Clean(rs[i].session) && Clean(rs[i].turn)
  }

  ghost predicate CleanEvents(es: seq<ArtifactEvent>) {
    forall i :: 0 <= i < |es| && IsTier1(es[i].toolName) ==> Clean(es[i].sessionID) && Clean(es[i].turnID)
  }

  lemma {:induction false} BuildAllClean(claims: set<string>, w: World, rs: seq<Request>)
    requires CleanRequests(rs)
    ensures CleanEvents(BuildAll(claims, w, rs).events)
  {
    if rs != [] {
      assert CleanRequests(rs[..|rs| - 1]);
      BuildAllClean(claims, w, rs[..|rs| - 1]);
    }
  }

  ghost predicate ShellPending(st: State) {
    && (forall k <- st.byCall :: !IsTier1(st.byCall[k].toolName))
    && (forall s <- st.fifo, i | 0 <= i < |st.fifo[s]| :: !IsTier1(st.fifo[s][i].toolName))
  }

  ghost predicate Inv(st: State) {
    Claimed(st.claims, st.saved) && CleanEvents(st.saved) && ShellPending(st)
  }

  lemma {:induction false} SavedKeepsInv(st: State, w: World, rs: seq<Request>)
    requires Inv(st) && CleanRequests(rs)
    ensures Inv(Saved(st, w, rs))
  {
    BuildAllClaimed(st.claims, st.saved, w, rs);
    BuildAllClean(st.claims, w, rs);
  }

  ghost predicate AllFrom(rs: seq<Request>, session: string, turn: string, tool: string) {
    forall i :: 0 <= i < |rs| ==> rs[i].session == session && rs[i].turn == turn && rs[i].tool == tool
  }

  lemma {:induction false} ShellRequestsFrom(w: World, session: string, turn: string, correlation: string, tool: string,
                                             ops: seq<FileOp>)
    ensures AllFrom(ShellRequests(w, session, turn, correlation, tool, ops), session, turn, tool)
  {
    if ops != [] {
      ShellRequestsFrom(w, session, turn, correlation, tool, ops[..|ops| - 1]);
    }
  }

  lemma {:induction false} ChangeRequestsAre(session: string, ev: ToolEvent, changes: seq<Change>)
    ensures var rs := ChangeRequests(session, ev, changes);
            && |rs| == |changes|
            && forall i :: 0 <= i < |rs| ==> rs[i] == Request(session, ev.turnID, ev.correlationID, ev.toolName,
                                                              changes[i].path, KindToOperation(changes[i].kind))
  {
    if changes != [] {
      ChangeRequestsAre(session, ev, changes[..|changes| - 1]);
    }
  }

  lemma {:induction false} UseRequestsClean(w: World, session: string, ev: ToolEvent)
    requires Clean(session) && Clean(ev.turnID)
    ensures CleanRequests(UseRequests(w, session, ev))
  {
    ChangeRequestsAre(session, ev, Entries(ev));
    ShellRequestsFrom(w, session, ev.turnID, ev.correlationID, ev.toolName, w.shellOps(ev.toolName, ev.fields));
  }

  lemma {:induction false} ResultRequestsClean(w: World, session: string, ev: ToolEvent, p: Option<PendingShell>)
    requires Clean(session) && Clean(ev.turnID) && (p.Some? ==> !IsTier1(p.value.toolName))
    ensures CleanRequests(ResultRequests(w, session, ev, p))
  {
    if p.Some? {
      ShellRequestsFrom(w, session, p.value.turnID, p.value.correlationID, p.value.toolName, p.value.ops);
    }
    ShellRequestsFrom(w, session, ev.turnID, ev.correlationID,
                      if ev.toolName == "" then "command_execution" else ev.toolName,
                      w.shellOps(ev.toolName, ev.fields));
  }

  predicate CleanCall(c: Call) {
    Clean(c.session) && match c case Entry(_, _, ev) => Clean(ev.turnID) case Flush(_, _, turn, _, _) => Clean(turn)
  }

  lemma {:induction false} ResultKeepsInv(st: State, w: World, session: string, ev: ToolEvent)
    requires Inv(st) && Clean(session) && Clean(ev.turnID) && ev.kind == ToolResult
    ensures Inv(Entered(st, w, session, ev))
  {
    var p := Released(st, session, ev.callID);
    ResultRequestsClean(w, session, ev, p);
    assert Inv(Taken(st, session, ev.callID));
    SavedKeepsInv(Taken(st, session, ev.callID), w, ResultRequests(w, session, ev, p));
  }

  lemma {:induction false} StashKeepsInv(st: State, session: string, callID: string, p: PendingShell)
    requires Inv(st) && !IsTier1(p.toolName)
    ensures Inv(Stashed(st, session, callID, p))
  {
  }

  lemma {:induction false} UseKeepsInv(st: State, w: World, session: string, ev: ToolEvent)
    requires Inv(st) && Clean(session) && Clean(ev.turnID) && ev.kind == ToolUse
    ensures Inv(Entered(st, w, session, ev))
  {
    UseRequestsClean(w, session, ev);
    var rs := UseRequests(w, session, ev);
    if Defers(w, session, ev) {
      var p := PendingShell(ev.toolName, ev.turnID, ev.correlationID, w.shellOps(ev.toolName, ev.fields));
      StashKeepsInv(st, session, ev.callID, p);
      SavedKeepsInv(Stashed(st, session, ev.callID, p), w, rs);
    } else {
      SavedKeepsInv(st, w, rs);
    }
  }

  lemma {:induction false} CallKeepsInv(st: State, c: Call)
    requires Inv(st) && CleanCall(c)
    ensures Inv(Applied(st, c))
  {
    match c {
      case Entry(w, session, ev) =>
        match ev.kind {
          case ToolResult => ResultKeepsInv(st, w, session, ev);
          case ToolUse => UseKeepsInv(st, w, session, ev);
          case OtherEntry =>
        }
      case Flush(w, session, turn, correlation, ops) =>
        if ops != [] {
          var ev := Synthesized(turn, correlation, ops);
          UseRequestsClean(w, session, ev);
          SavedKeepsInv(st, w, UseRequests(w, session, ev));
        }
    }
  }

  lemma {:induction false} RunKeepsInv(calls: seq<Call>)
    requires forall i :: 0 <= i < |calls| ==> CleanCall(calls[i])
    ensures Inv(Run(calls))
  {
    if calls != [] {
      RunKeepsInv(calls[..|calls| - 1]);
      CallKeepsInv(Run(calls[..|calls| - 1]), calls[|calls| - 1]);
    }
  }

  predicate About(e: ArtifactEvent, session: string, turn: string, key: string) {
    e.sessionID == session && e.turnID == turn && e.key == key
  }

  /** In every run, once a structured event is saved for a path of a turn, nothing more is saved for it:
      neither a second structured event nor a shell event. */
  lemma {:induction false} FirstClaimWins(calls: seq<Call>, i: nat, j: nat)
    requires forall n :: 0 <= n < |calls| ==> CleanCall(calls[n])
    requires i < j < |Run(calls).saved| && IsTier1(Run(calls).saved[i].toolName)
    ensures var e := Run(calls).saved[i]; !About(Run(calls).saved[j], e.sessionID, e.turnID, e.key)
  {
    RunKeepsInv(calls);
  }

  // ---------------------------------------------------------------- the flush

  lemma {:induction false} BuildAllClaims(claims: set<string>, w: World, rs: seq<Request>, i: nat)
    requires i < |rs| && rs[i].path != "" && rs[i].operation != "" && IsTier1(rs[i].tool)
    ensures SeenKey(rs[i].session, rs[i].turn, Key(w, rs[i].path, rs[i].session)) in BuildAll(claims, w, rs).claims
  {
    var n := |rs| - 1;
    if i < n {
      BuildAllClaims(claims, w, rs[..n], i);
    }
  }

  lemma {:induction false} CollectedFrom(events: seq<ToolEvent>, k: nat)
    requires k < |events| && TouchesFile(events[k])
    ensures exists i :: 0 <= i < |Collected(events)|
                        && Collected(events)[i].path == FirstField(events[k], COLLECTED_FIELDS)
  {
    var n := |events| - 1;
    var last := events[n];
    if k < n {
      CollectedFrom(events[..n], k);
      var i :| 0 <= i < |Collected(events[..n])|
               && Collected(events[..n])[i].path == FirstField(events[k], COLLECTED_FIELDS);
      assert Collected(events)[i] == Collected(events[..n])[i];
    } else {
      assert Collected(events)[|Collected(events)| - 1].path == FirstField(last, COLLECTED_FIELDS);
    }
  }

  lemma {:induction false} CollectedIsFull(events: seq<ToolEvent>)
    ensures forall c <- Collected(events) :: c.path != "" && KindToOperation(c.kind) != ""
  {
    if events != [] {
      CollectedIsFull(events[..|events| - 1]);
    }
  }

  lemma {:induction false} SynthesizedEntries(turn: string, correlation: string, ops: seq<Change>)
    requires forall c <- ops :: c.path != ""
    ensures Entries(Synthesized(turn, correlation, ops)) == ops
  {
    if |ops| == 1 {
      assert ops == [ops[0]];
      assert ops[0] in ops;
    }
  }

  /** The flush claims the key of every file that the turn's Write family touched. */
  lemma {:induction false} FlushClaims(st: State, w: World, session: string, turn: string, correlation: string,
                                       events: seq<ToolEvent>, k: nat)
    requires w.structuredTool(session) && k < |events| && TouchesFile(events[k])
    ensures SeenKey(session, turn, Key(w, FirstField(events[k], COLLECTED_FIELDS), session)) in
            Flushed(st, w, session, turn, correlation, Collected(events)).claims
  {
    var ops := Collected(events);
    CollectedFrom(events, k);
    CollectedIsFull(events);
    var i :| 0 <= i < |ops| && ops[i].path == FirstField(events[k], COLLECTED_FIELDS);
    var ev := Synthesized(turn, correlation, ops);
    SynthesizedEntries(turn, correlation, ops);
    ChangeRequestsAre(session, ev, ops);
    assert ops[i] in ops;
    BuildAllClaims(st.claims, w, ChangeRequests(session, ev, ops), i);
  }

  /** Event number `i` is the only structured event about that key. */
  ghost predicate OnlyStructured(saved: seq<ArtifactEvent>, i: int, session: string, turn: string, key: string) {
    && 0 <= i < |saved| && IsTier1(saved[i].toolName) && About(saved[i], session, turn, key)
    && forall j :: 0 <= j < |saved| && IsTier1(saved[j].toolName) && About(saved[j], session, turn, key) ==> j == i
  }

  lemma {:induction false} ClaimedOnce(st: State, session: string, turn: string, key: string)
    requires Inv(st) && Clean(session) && Clean(turn) && SeenKey(session, turn, key) in st.claims
    ensures exists i :: OnlyStructured(st.saved, i, session, turn, key)
  {
    var i :| 0 <= i < |st.saved| && IsTier1(st.saved[i].toolName)
             && SeenKeyOf(st.saved[i]) == SeenKey(session, turn, key);
    SeenKeyInjective(st.saved[i].sessionID, st.saved[i].turnID, st.saved[i].key, session, turn, key);
    forall j | 0 <= j < |st.saved| && IsTier1(st.saved[j].toolName) && About(st.saved[j], session, turn, key)
      ensures j == i
    {
      assert SeenKeyOf(st.saved[j]) == SeenKeyOf(st.saved[i]);
    }
    assert OnlyStructured(st.saved, i, session, turn, key);
  }

  /** Whatever was observed live, in whatever order and for whichever sessions: after the flush of a
      turn's events, every file its Write family touched has exactly one structured event for that
      session and turn. */
  lemma {:induction false} FlushCompletesTheTurn(calls: seq<Call>, w: World, session: string, turn: string,
                                                 correlation: string, events: seq<ToolEvent>, k: nat)
    requires forall i :: 0 <= i < |calls| ==> CleanCall(calls[i])
    requires Clean(session) && Clean(turn)
    requires w.structuredTool(session) && k < |events| && TouchesFile(events[k])
    ensures var saved := Run(calls + [Flush(w, session, turn, correlation, Collected(events))]).saved;
            var key := Key(w, FirstField(events[k], COLLECTED_FIELDS), session);
            exists i :: OnlyStructured(saved, i, session, turn, key)
  {
    var flush := Flush(w, session, turn, correlation, Collected(events));
    RunKeepsInv(calls);
    CallKeepsInv(Run(calls), flush);
    FlushClaims(Run(calls), w, session, turn, correlation, events, k);
    RunSnoc(calls, flush);
    ClaimedOnce(Applied(Run(calls), flush), session, turn, Key(w, FirstField(events[k], COLLECTED_FIELDS), session));
  }

  // ---------------------------------------------------------------- live and flushed

  /** The path the live analysis reads from a Write family event, and the one the flush reads. */
  function LivePath(ev: ToolEvent): string {
    FirstField(ev, PathFields(ev.toolName))
  }

  function FlushedPath(ev: ToolEvent): string {
    FirstField(ev, COLLECTED_FIELDS)
  }

  lemma {:induction false} BuildAllKeepsClaims(claims: set<string>, w: World, rs: seq<Request>)
    ensures claims <= BuildAll(claims, w, rs).claims
  {
    if rs != [] {
      BuildAllKeepsClaims(claims, w, rs[..|rs| - 1]);
    }
  }

  lemma {:induction false} CallKeepsClaims(st: State, c: Call)
    ensures st.claims <= Applied(st, c).claims
  {
    match c {
      case Entry(w, session, ev) =>
        BuildAllKeepsClaims(st.claims, w, ResultRequests(w, session, ev, Released(st, session, ev.callID)));
        BuildAllKeepsClaims(st.claims, w, UseRequests(w, session, ev));
      case Flush(w, session, turn, correlation, ops) =>
        BuildAllKeepsClaims(st.claims, w, UseRequests(w, session, Synthesized(turn, correlation, ops)));
    }
  }

  lemma {:induction false} RunKeepsClaims(calls: seq<Call>, n: nat)
    requires n <= |calls|
    ensures Run(calls[..n]).claims <= Run(calls).claims
    decreases |calls|
  {
    if n == |calls| {
      assert calls[..n] == calls;
    } else {
      var front := calls[..|calls| - 1];
      assert front[..n] == calls[..n];
      RunKeepsClaims(front, n);
      CallKeepsClaims(Run(front), calls[|calls| - 1]);
    }
  }

  /** Observed live, a Write family event claims the key of the path it is read to have. */
  lemma {:induction false} EntryClaims(st: State, w: World, session: string, ev: ToolEvent)
    requires ev.kind == ToolUse && WriteFamilyKind(ev.toolName) != "" && w.structuredTool(session) && LivePath(ev) != ""
    ensures SeenKey(session, ev.turnID, Key(w, LivePath(ev), session)) in Entered(st, w, session, ev).claims
  {
    OperationsAgree(ev.toolName);
    BuildAllClaims(st.claims, w, UseRequests(w, session, ev), 0);
  }

  lemma {:induction false} RunClaims(calls: seq<Call>, p: nat, w: World, session: string, ev: ToolEvent)
    requires p < |calls| && calls[p] == Entry(w, session, ev)
    requires ev.kind == ToolUse && WriteFamilyKind(ev.toolName) != "" && w.structuredTool(session) && LivePath(ev) != ""
    ensures SeenKey(session, ev.turnID, Key(w, LivePath(ev), session)) in Run(calls).claims
  {
    EntryClaims(Run(calls[..p]), w, session, ev);
    OneMore(calls, p);
    RunSnoc(calls[..p], calls[p]);
    RunKeepsClaims(calls, p + 1);
  }

  /** The keys under which an event is recorded, live and by the flush. */
  function RecordedKeys(live: World, flush: World, session: string, ev: ToolEvent): set<string> {
    {Key(flush, FlushedPath(ev), session)} +
    (if LivePath(ev) == "" then {} else {Key(live, LivePath(ev), session)})
  }

  predicate IsRecord(e: ArtifactEvent, session: string, turn: string, keys: set<string>) {
    IsTier1(e.toolName) && e.sessionID == session && e.turnID == turn && e.key in keys
  }

  /** Event number `i` is the only structured event under any of the keys. */
  ghost predicate OnlyRecord(saved: seq<ArtifactEvent>, i: int, session: string, turn: string, keys: set<string>) {
    && 0 <= i < |saved| && IsRecord(saved[i], session, turn, keys)
    && forall j :: 0 <= j < |saved| && IsRecord(saved[j], session, turn, keys) ==> j == i
  }

  lemma {:induction false} OneRecordExactly(st: State, session: string, turn: string, a: string, b: string)
    requires Inv(st) && Clean(session) && Clean(turn)
    requires SeenKey(session, turn, a) in st.claims && SeenKey(session, turn, b) in st.claims
    ensures (exists i :: OnlyRecord(st.saved, i, session, turn, {a, b})) <==> a == b
  {
    ClaimedOnce(st, session, turn, a);
    ClaimedOnce(st, session, turn, b);
    var i :| OnlyStructured(st.saved, i, session, turn, a);
    var j :| OnlyStructured(st.saved, j, session, turn, b);
    assert IsRecord(st.saved[i], session, turn, {a, b}) && IsRecord(st.saved[j], session, turn, {a, b});
    if a == b {
      assert OnlyRecord(st.saved, i, session, turn, {a, b});
    }
  }

  /** After the flush both paths' keys are claimed. */
  lemma {:induction false} FlushedRunClaims(calls: seq<Call>, p: nat, live: World, flush: World, session: string,
                                            correlation: string, events: seq<ToolEvent>, k: nat)
    requires forall i :: 0 <= i < |calls| ==> CleanCall(calls[i])
    requires k < |events| && TouchesFile(events[k])
    requires p < |calls| && calls[p] == Entry(live, session, events[k])
    requires live.structuredTool(session) && flush.structuredTool(session)
    ensures var ev := events[k];
            var st := Run(calls + [Flush(flush, session, ev.turnID, correlation, Collected(events))]);
            && Inv(st) && Clean(session) && Clean(ev.turnID)
            && SeenKey(session, ev.turnID, Key(flush, FlushedPath(ev), session)) in st.claims
            && (LivePath(ev) != "" ==> SeenKey(session, ev.turnID, Key(live, LivePath(ev), session)) in st.claims)
  {
    var ev := events[k];
    var c := Flush(flush, session, ev.turnID, correlation, Collected(events));
    assert CleanCall(calls[p]);
    RunKeepsInv(calls);
    CallKeepsInv(Run(calls), c);
    RunSnoc(calls, c);
    FlushClaims(Run(calls), flush, session, ev.turnID, correlation, events, k);
    if LivePath(ev) != "" {
      RunClaims(calls, p, live, session, ev);
      CallKeepsClaims(Run(calls), c);
    }
  }

  /** Exactly when an event that was observed live, anywhere in a run, and is then flushed with its turn is
      recorded once: if and only if the live analysis read no path from it, or one with the key of the
      path that the flush reads. Otherwise it is recorded under two keys. */
  lemma {:induction false} RecordedOnceExactly(calls: seq<Call>, p: nat, live: World, flush: World, session: string,
                                               correlation: string, events: seq<ToolEvent>, k: nat)
    requires forall i :: 0 <= i < |calls| ==> CleanCall(calls[i])
    requires k < |events| && TouchesFile(events[k])
    requires p < |calls| && calls[p] == Entry(live, session, events[k])
    requires live.structuredTool(session) && flush.structuredTool(session)
    ensures var ev := events[k];
            var saved := Run(calls + [Flush(flush, session, ev.turnID, correlation, Collected(events))]).saved;
            (exists i :: OnlyRecord(saved, i, session, ev.turnID, RecordedKeys(live, flush, session, ev))) <==>
            LivePath(ev) == "" || Key(live, LivePath(ev), session) == Key(flush, FlushedPath(ev), session)
  {
    var ev := events[k];
    var st := Run(calls + [Flush(flush, session, ev.turnID, correlation, Collected(events))]);
    var b := Key(flush, FlushedPath(ev), session);
    FlushedRunClaims(calls, p, live, flush, session, correlation, events, k);
    var a := if LivePath(ev) == "" then b else Key(live, LivePath(ev), session);
    assert RecordedKeys(live, flush, session, ev) == {a, b};
    OneRecordExactly(st, session, ev.turnID, a, b);
  }

  /** The smallest case: a Write with two different paths, observed and flushed. */
  lemma {:induction false} WriteRecordedTwice(session: string, turn: string)
    requires Clean(session) && Clean(turn)
    ensures var w := World((p, s) => p, (p, s) => p, p => true, (t, f) => [], s => true, s => true);
            var ev := ToolEvent(ToolUse, "Write", map["path" := "a", "file_path" := "b"], [], "", turn, "");
            var saved := Run([Entry(w, session, ev), Flush(w, session, turn, "", Collected([ev]))]).saved;
            !exists i :: OnlyRecord(saved, i, session, turn, {"a", "b"})
  {
    var w := World((p, s) => p, (p, s) => p, p => true, (t, f) => [], s => true, s => true);
    var ev := ToolEvent(ToolUse, "Write", map["path" := "a", "file_path" := "b"], [], "", turn, "");
    var calls := [Entry(w, session, ev)];
    OneOrTwoFields(ev, "path", "file_path");
    assert LivePath(ev) == "a" && FlushedPath(ev) == "b";
    RecordedOnceExactly(calls, 0, w, w, session, "", [ev], 0);
    assert calls + [Flush(w, session, turn, "", Collected([ev]))] ==
           [Entry(w, session, ev), Flush(w, session, turn, "", Collected([ev]))];
    assert RecordedKeys(w, w, session, ev) == {"a", "b"};
  }

  /** Without regard to keys, the two paths are the same exactly under this condition on the fields. */
  lemma {:induction false} PathsAgreeExactly(ev: ToolEvent)
    requires WriteFamilyKind(ev.toolName) != ""
    ensures var f, p, n := Field(ev, "file_path"), Field(ev, "path"), Field(ev, "notebook_path");
            LivePath(ev) == FlushedPath(ev) <==>
            match ev.toolName
            case "Write" => (f == "" || p == "" || f == p) && (f == "" && p == "" ==> n == "")
            case "Edit" => f == "" && p == "" ==> n == ""
            case "MultiEdit" => f == "" && p == "" ==> n == ""
            case "NotebookEdit" =>
              if n == "" then (f == "" ==> p == "") else if f == "" then p == "" || p == n else f == n
            case _ => if p == "" then f == "" && n == "" else f == "" || f == p
  {
    var f, p, n := Field(ev, "file_path"), Field(ev, "path"), Field(ev, "notebook_path");
    assert COLLECTED_FIELDS[1..] == ["path", "notebook_path"];
    OneOrTwoFields(ev, "path", "notebook_path");
    assert FirstField(ev, COLLECTED_FIELDS) == if f != "" then f else if p != "" then p else n;
    OneOrTwoFields(ev, "path", "file_path");
    OneOrTwoFields(ev, "file_path", "path");
    OneOrTwoFields(ev, "notebook_path", "file_path");
  }

  /** Whichever of the two records a Write family tool, the operation is the same, and none without one. */
  lemma {:induction false} OperationsAgree(tool: string)
    ensures WriteFamilyKind(tool) != "" <==> PathFields(tool) != []
    ensures WriteFamilyKind(tool) != "" ==>
              KindToOperation(WriteFamilyKind(tool)) == MappedOperation(tool) && IsTier1(tool)
  {
  }

  /** The structured tools are those that list changes and the Write family; no shell tool is one. */
  lemma {:induction false} StructuredExactly(tool: string)
    ensures IsTier1(tool) <==> tool in {"file_change", "turn_diff", "turn_files"} || WriteFamilyKind(tool) != ""
    ensures IsTier1(tool) ==> !IsShellTool(tool)
  {
  }

  lemma {:induction false} OneOrTwoFields(ev: ToolEvent, a: string, b: string)
    ensures FirstField(ev, [a]) == Field(ev, a)
    ensures FirstField(ev, [a, b]) == if Field(ev, a) != "" then Field(ev, a) else Field(ev, b)
  {
    assert [a, b][1..] == [b];
    assert FirstField(ev, [b]) == Field(ev, b);
  }

  // ---------------------------------------------------------------- what is saved

  /** The event saved for a path, field by field. */
  predicate IsEventOf(e: ArtifactEvent, w: World, session: string, turn: string, correlation: string, tool: string,
                      path: string, operation: string) {
    && path != "" && operation != ""
    && e.sessionID == session && e.turnID == turn && e.correlationID == correlation && e.toolName == tool
    && e.actualPath == w.resolve(path, session) && e.key == w.relative(w.resolve(path, session), session)
    && e.operation == operation
  }

  /** The path and the operation that the live analysis records for a Write family event. */
  function RecordedPath(ev: ToolEvent): string {
    var f, p, n := Field(ev, "file_path"), Field(ev, "path"), Field(ev, "notebook_path");
    match ev.toolName
    case "Write" => if p != "" then p else f
    case "Edit" => if f != "" then f else p
    case "MultiEdit" => if f != "" then f else p
    case "NotebookEdit" => if n != "" then n else f
    case _ => p
  }

  function RecordedOperation(tool: string): string {
    if tool == "Write" then "create" else if tool == "Delete" then "delete" else "update"
  }

  /** A single request: nothing without a path or on a claimed key; else one event. */
  lemma {:induction false} OneRequestSaves(st: State, w: World, r: Request)
    requires IsTier1(r.tool) && r.operation != ""
    ensures var next := Saved(st, w, [r]);
            var claim := r.session + "\0" + r.turn + "\0" + w.relative(w.resolve(r.path, r.session), r.session);
            if r.path == "" || claim in st.claims then next == st
            else
              && next.claims == st.claims + {claim} && |next.saved| == |st.saved| + 1
              && next.saved[..|st.saved|] == st.saved
              && IsEventOf(next.saved[|st.saved|], w, r.session, r.turn, r.correlation, r.tool, r.path, r.operation)
              && next.byCall == st.byCall && next.fifo == st.fifo
  {
    assert [r][..0] == [];
    assert BuildAll(st.claims, w, []) == Built(st.claims, []);
    AppendNothing(st.saved);
  }

  /** A Write family event observed live: nothing without a path or on a claimed key; else one event, with the
      operation of its tool, and its key is claimed. */
  lemma {:induction false} WriteFamilySaves(st: State, w: World, session: string, ev: ToolEvent)
    requires ev.kind == ToolUse && WriteFamilyKind(ev.toolName) != "" && w.structuredTool(session)
    ensures var path, next := RecordedPath(ev), Entered(st, w, session, ev);
            var claim := session + "\0" + ev.turnID + "\0" + w.relative(w.resolve(path, session), session);
            if path == "" || claim in st.claims then next == st
            else
              && next.claims == st.claims + {claim} && |next.saved| == |st.saved| + 1
              && next.saved[..|st.saved|] == st.saved
              && IsEventOf(next.saved[|st.saved|], w, session, ev.turnID, ev.correlationID, ev.toolName, path,
                           RecordedOperation(ev.toolName))
              && next.byCall == st.byCall && next.fifo == st.fifo
  {
    LivePathIs(ev);
    OneRequestSaves(st, w, Request(session, ev.turnID, ev.correlationID, ev.toolName, RecordedPath(ev),
                                   RecordedOperation(ev.toolName)));
  }

  lemma {:induction false} LivePathIs(ev: ToolEvent)
    requires WriteFamilyKind(ev.toolName) != ""
    ensures LivePath(ev) == RecordedPath(ev) && MappedOperation(ev.toolName) == RecordedOperation(ev.toolName)
    ensures IsTier1(ev.toolName) && !IsChangeTool(ev.toolName) && !IsShellTool(ev.toolName)
  {
    OneOrTwoFields(ev, "path", "file_path");
    OneOrTwoFields(ev, "file_path", "path");
    OneOrTwoFields(ev, "notebook_path", "file_path");
  }

  /** Every event built comes from a request. */
  lemma {:induction false} BuiltFromRequest(claims: set<string>, w: World, rs: seq<Request>, n: nat)
    returns (i: nat)
    requires n < |BuildAll(claims, w, rs).events|
    ensures i < |rs|
    ensures var r := rs[i];
            IsEventOf(BuildAll(claims, w, rs).events[n], w, r.session, r.turn, r.correlation, r.tool, r.path,
                      r.operation)
  {
    var front := rs[..|rs| - 1];
    if n < |BuildAll(claims, w, front).events| {
      i := BuiltFromRequest(claims, w, front, n);
    } else {
      i := |rs| - 1;
    }
  }

  /** The kind of a change and the operation it is saved with. */
  predicate SavedAs(kind: string, operation: string) {
    || ((kind == "add" || kind == "create") && operation == "create")
    || (kind == "update" && operation == "update")
    || (kind == "delete" && operation == "delete")
  }

  /** Every event that the flush saves is that of one of the operations it was given, under the turn it was
      given and the name of the flush. */
  lemma {:induction false} FlushSaves(st: State, w: World, session: string, turn: string, correlation: string,
                                      ops: seq<Change>, n: nat)
    returns (i: nat)
    requires |st.saved| <= n < |Flushed(st, w, session, turn, correlation, ops).saved|
    ensures i < |ops|
    ensures exists operation ::
              && SavedAs(ops[i].kind, operation)
              && IsEventOf(Flushed(st, w, session, turn, correlation, ops).saved[n], w, session, turn, correlation,
                           "turn_files", ops[i].path, operation)
  {
    var ev := Synthesized(turn, correlation, ops);
    FlushRequests(w, session, ev, ops, turn, correlation);
    i := BuiltFromRequest(st.claims, w, UseRequests(w, session, ev), n - |st.saved|);
    assert SavedAs(ops[i].kind, KindToOperation(ops[i].kind));
  }

  /** What the flush asks for. */
  lemma {:induction false} FlushRequests(w: World, session: string, ev: ToolEvent, ops: seq<Change>, turn: string,
                                         correlation: string)
    requires ops != [] && ev == Synthesized(turn, correlation, ops)
    ensures var rs := UseRequests(w, session, ev);
            && |rs| <= |ops|
            && forall i :: 0 <= i < |rs| ==>
                 rs[i] == Request(session, turn, correlation, "turn_files", ops[i].path, KindToOperation(ops[i].kind))
  {
    ChangeRequestsAre(session, ev, Entries(ev));
  }

  // ---------------------------------------------------------------- deferred shell operations

  function PendingOf(c: Call): PendingShell
    requires c.Entry?
  {
    PendingShell(c.ev.toolName, c.ev.turnID, c.ev.correlationID, c.w.shellOps(c.ev.toolName, c.ev.fields))
  }

  predicate Stashes(c: Call, session: string, callID: string) {
    c.Entry? && c.session == session && c.ev.callID == callID && Defers(c.w, c.session, c.ev)
  }

  predicate Asks(c: Call, session: string) {
    c.Entry? && c.session == session && c.ev.kind == ToolResult
  }

  /** The batches a session deferred without a call id, and those its tool results took from the queue. */
  function QueuedBy(calls: seq<Call>, session: string): seq<PendingShell> {
    if calls == [] then []
    else
      var last := calls[|calls| - 1];
      QueuedBy(calls[..|calls| - 1], session) + (if Stashes(last, session, "") then [PendingOf(last)] else [])
  }

  function DequeuedBy(calls: seq<Call>, session: string): seq<PendingShell> {
    if calls == [] then []
    else
      var front, last := calls[..|calls| - 1], calls[|calls| - 1];
      var q := Queue(Run(front).fifo, session);
      DequeuedBy(front, session) +
      (if Asks(last, session) && !ByCall(Run(front), session, last.ev.callID) && q != [] then [q[0]] else [])
  }

  /** In every run each batch deferred without a call id is released at most once and in order: what was
      released, followed by what still waits, is what was deferred. */
  lemma {:induction false} QueueConserves(calls: seq<Call>, session: string)
    ensures DequeuedBy(calls, session) + Queue(Run(calls).fifo, session) == QueuedBy(calls, session)
  {
    if calls != [] {
      var front, last := calls[..|calls| - 1], calls[|calls| - 1];
      QueueConserves(front, session);
      QueueStep(Run(front), last, session);
      var q, out := Queue(Run(front).fifo, session), DequeuedBy(front, session);
      AppendNothing(out);
      AppendNothing(QueuedBy(front, session));
      if Stashes(last, session, "") {
        Regroup(out, q, [PendingOf(last)]);
      } else if Asks(last, session) && !ByCall(Run(front), session, last.ev.callID) && q != [] {
        assert [q[0]] + q[1..] == q;
        Regroup(out, [q[0]], q[1..]);
      }
    }
  }

  lemma {:induction false} QueueStep(st: State, c: Call, session: string)
    ensures var q := Queue(st.fifo, session);
            Queue(Applied(st, c).fifo, session) ==
            if Stashes(c, session, "") then q + [PendingOf(c)]
            else if Asks(c, session) && !ByCall(st, session, c.ev.callID) && q != [] then q[1..]
            else q
  {
  }

  /** The batch deferred under a call id and not yet asked for. */
  function Waiting(calls: seq<Call>, session: string, callID: string): Option<PendingShell> {
    if calls == [] then None
    else
      var last := calls[|calls| - 1];
      if Stashes(last, session, callID) then Some(PendingOf(last))
      else if Asks(last, session) && last.ev.callID == callID then None
      else Waiting(calls[..|calls| - 1], session, callID)
  }

  function Lookup(st: State, session: string, callID: string): Option<PendingShell> {
    if PendingKey(session, callID) in st.byCall then Some(st.byCall[PendingKey(session, callID)]) else None
  }

  lemma {:induction false} LookupStep(st: State, c: Call, session: string, callID: string)
    requires Clean(session) && CleanCall(c) && callID != ""
    ensures Lookup(Applied(st, c), session, callID) ==
            if Stashes(c, session, callID) then Some(PendingOf(c))
            else if Asks(c, session) && c.ev.callID == callID then None
            else Lookup(st, session, callID)
  {
    if c.Entry? && PendingKey(c.session, c.ev.callID) == PendingKey(session, callID) {
      FirstNul(c.session, c.ev.callID, session, callID);
    }
  }

  /** In every run, a tool result with a call id releases exactly the batch that was last deferred under
      that id in its session and not asked for since; only without one does it turn to the queue. */
  lemma {:induction false} ReleasedByItsOwnResult(calls: seq<Call>, session: string, callID: string)
    requires forall i :: 0 <= i < |calls| ==> CleanCall(calls[i])
    requires Clean(session) && callID != ""
    ensures Lookup(Run(calls), session, callID) == Waiting(calls, session, callID)
    ensures Waiting(calls, session, callID).Some? ==>
              Released(Run(calls), session, callID) == Waiting(calls, session, callID)
  {
    if calls != [] {
      ReleasedByItsOwnResult(calls[..|calls| - 1], session, callID);
      LookupStep(Run(calls[..|calls| - 1]), calls[|calls| - 1], session, callID);
    }
  }
}
