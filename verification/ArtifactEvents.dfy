/** What one log entry and one flush save, exactly: the file operations it stands for, in order. */
module ArtifactEvents {
  import opened Wrappers
  import opened Seqs
  import opened Artifacts
  import opened ArtifactRuns

  predicate Structured(tool: string) {
    tool in {"file_change", "turn_diff", "turn_files", "Write", "Edit", "MultiEdit", "NotebookEdit", "StrReplace",
             "Delete"}
  }

  /** Recording operations one after the other under a turn and a tool: an operation without a path or a name, on
      a claimed key, or (if asked for) on a path that does not exist and is not deleted is left out; a
      structured tool claims the keys it records. */
  function Record(claims: set<string>, w: World, session: string, turn: string, correlation: string, tool: string,
                  ops: seq<FileOp>, existing: bool)
    : Built
  {
    if ops == [] then Built(claims, [])
    else
      var b := Record(claims, w, session, turn, correlation, tool, ops[..|ops| - 1], existing);
      var op := ops[|ops| - 1];
      if existing && op.operation != "delete" && !w.onDisk(w.resolve(op.path, session)) then b
      else
        var c := RecordOne(b.claims, w, session, turn, correlation, tool, op);
        Built(c.claims, b.events + c.events)
  }

  function RecordOne(claims: set<string>, w: World, session: string, turn: string, correlation: string, tool: string,
                     op: FileOp)
    : Built
  {
    var actual := w.resolve(op.path, session);
    var key := w.relative(actual, session);
    var claim := session + "\0" + turn + "\0" + key;
    if op.path == "" || op.operation == "" || claim in claims then Built(claims, [])
    else
      Built(if Structured(tool) then claims + {claim} else claims,
            [ArtifactEvent(session, turn, correlation, key, actual, op.operation, tool)])
  }

  lemma {:induction false} OneIsBuilt(claims: set<string>, w: World, r: Request)
    ensures BuildOne(claims, w, r) ==
            RecordOne(claims, w, r.session, r.turn, r.correlation, r.tool, FileOp(r.path, r.operation))
  {
    StructuredExactly(r.tool);
  }

  lemma {:induction false} ShellIsRecord(claims: set<string>, w: World, session: string, turn: string,
                                         correlation: string, tool: string, ops: seq<FileOp>)
    ensures BuildAll(claims, w, ShellRequests(w, session, turn, correlation, tool, ops)) ==
            Record(claims, w, session, turn, correlation, tool, ops, true)
  {
    if ops != [] {
      var front, last := ops[..|ops| - 1], ops[|ops| - 1];
      var rs := ShellRequests(w, session, turn, correlation, tool, front);
      var r := Request(session, turn, correlation, tool, last.path, last.operation);
      ShellIsRecord(claims, w, session, turn, correlation, tool, front);
      OneIsBuilt(BuildAll(claims, w, rs).claims, w, r);
      BuildAllSnoc(claims, w, rs, r);
      AppendNothing(rs);
    }
  }

  /** The operations that a list of changes stands for. */
  function ChangeOps(changes: seq<Change>): seq<FileOp> {
    if changes == [] then []
    else
      var last := changes[|changes| - 1];
      var operation := if last.kind == "add" || last.kind == "create" then "create"
                       else if last.kind == "update" || last.kind == "delete" then last.kind
                       else "";
      ChangeOps(changes[..|changes| - 1]) + [FileOp(last.path, operation)]
  }

  lemma {:induction false} RecordSnoc(claims: set<string>, w: World, session: string, turn: string,
                                      correlation: string, tool: string, ops: seq<FileOp>, op: FileOp)
    ensures var b := Record(claims, w, session, turn, correlation, tool, ops, false);
            var c := RecordOne(b.claims, w, session, turn, correlation, tool, op);
            Record(claims, w, session, turn, correlation, tool, ops + [op], false) ==
            Built(c.claims, b.events + c.events)
  {
    Front(ops, op);
  }

  lemma {:induction false} ChangesAreRecord(claims: set<string>, w: World, session: string, ev: ToolEvent,
                                            changes: seq<Change>)
    ensures BuildAll(claims, w, ChangeRequests(session, ev, changes)) ==
            Record(claims, w, session, ev.turnID, ev.correlationID, ev.toolName, ChangeOps(changes), false)
  {
    if changes != [] {
      var front, last := changes[..|changes| - 1], changes[|changes| - 1];
      var rs := ChangeRequests(session, ev, front);
      ChangesAreRecord(claims, w, session, ev, front);
      var op := FileOp(last.path, KindToOperation(last.kind));
      var r := Request(session, ev.turnID, ev.correlationID, ev.toolName, op.path, op.operation);
      OneIsBuilt(BuildAll(claims, w, rs).claims, w, r);
      BuildAllSnoc(claims, w, rs, r);
      RecordSnoc(claims, w, session, ev.turnID, ev.correlationID, ev.toolName, ChangeOps(front), op);
      assert ChangeOps(changes) == ChangeOps(front) + [op];
    }
  }

  /** The operations that a tool call stands for, and whether a path must exist. A tool that lists changes names
      one in its own fields or several in its list; a shell tool has run; any other structured tool has
      the one file of its path field. */
  function UseOps(w: World, session: string, ev: ToolEvent): (seq<FileOp>, bool) {
    if ev.toolName in {"file_change", "turn_diff", "turn_files"} then
      if !w.structuredTool(session) then ([], false)
      else if Field(ev, "path") != "" then (ChangeOps([Change(Field(ev, "path"), Field(ev, "kind"))]), false)
      else (ChangeOps(ev.changes), false)
    else if ev.toolName in {"command_execution", "Bash", "shell", "shell_command"} then
      if w.shellParser(session) && Field(ev, "execution_status") == "completed"
      then (w.shellOps(ev.toolName, ev.fields), true) else ([], true)
    else if w.structuredTool(session)
         && ev.toolName in {"Write", "Edit", "MultiEdit", "NotebookEdit", "StrReplace", "Delete"}
    then ([FileOp(RecordedPath(ev), RecordedOperation(ev.toolName))], false)
    else ([], false)
  }

  /** A shell call that has not run yet: it names operations and does not say that it started or completed. A
      command execution reports itself when it has. */
  predicate Waits(w: World, session: string, ev: ToolEvent) {
    && ev.toolName in {"Bash", "shell", "shell_command"} && w.shellParser(session)
    && w.shellOps(ev.toolName, ev.fields) != []
    && Field(ev, "execution_status") !in {"started", "completed"}
  }

  lemma {:induction false} WaitsIsDefers(w: World, session: string, ev: ToolEvent)
    requires ev.kind == ToolUse
    ensures Waits(w, session, ev) <==> Defers(w, session, ev)
  {
  }

  lemma {:induction false} OneIsRecord(claims: set<string>, w: World, r: Request)
    ensures BuildAll(claims, w, [r]) ==
            Record(claims, w, r.session, r.turn, r.correlation, r.tool, [FileOp(r.path, r.operation)], false)
  {
    assert [r] == [] + [r];
    BuildAllSnoc(claims, w, [], r);
    OneIsBuilt(claims, w, r);
    assert [FileOp(r.path, r.operation)][..0] == [];
  }

  /** What a tool call saves and claims is the record of the operations it stands for. */
  lemma {:induction false} UseIsRecord(claims: set<string>, w: World, session: string, ev: ToolEvent)
    ensures var (ops, existing) := UseOps(w, session, ev);
            BuildAll(claims, w, UseRequests(w, session, ev)) ==
            Record(claims, w, session, ev.turnID, ev.correlationID, ev.toolName, ops, existing)
  {
    if IsChangeTool(ev.toolName) {
      if w.structuredTool(session) {
        ChangesAreRecord(claims, w, session, ev, Entries(ev));
      }
    } else if IsShellTool(ev.toolName) {
      ShellIsRecord(claims, w, session, ev.turnID, ev.correlationID, ev.toolName, w.shellOps(ev.toolName, ev.fields));
    } else if w.structuredTool(session) {
      OtherIsRecord(claims, w, session, ev);
    }
  }

  lemma {:induction false} OtherIsRecord(claims: set<string>, w: World, session: string, ev: ToolEvent)
    requires !IsChangeTool(ev.toolName) && !IsShellTool(ev.toolName) && w.structuredTool(session)
    ensures var (ops, existing) := UseOps(w, session, ev);
            BuildAll(claims, w, UseRequests(w, session, ev)) ==
            Record(claims, w, session, ev.turnID, ev.correlationID, ev.toolName, ops, existing)
  {
    var r := UseRequests(w, session, ev)[0];
    OneIsRecord(claims, w, r);
    OperationsAgree(ev.toolName);
    if WriteFamilyKind(ev.toolName) != "" {
      LivePathIs(ev);
    } else {
      assert r.path == "";
      assert [FileOp(r.path, r.operation)][..0] == [];
    }
  }

  /** What one entry does, exactly. A tool call saves the record of its operations; a shell call that has not run
      is kept for its result. A tool result, while the shell parser is on, saves what it releases, under
      the turn and the tool of the call that was kept, and then what it stands for itself. */
  lemma {:induction false} EnteredExactly(st: State, w: World, session: string, ev: ToolEvent)
    ensures var next := Entered(st, w, session, ev);
            match ev.kind
            case ToolUse =>
              var (ops, existing) := UseOps(w, session, ev);
              var b := Record(st.claims, w, session, ev.turnID, ev.correlationID, ev.toolName, ops, existing);
              && next.claims == b.claims && next.saved == st.saved + b.events
              && (if !Waits(w, session, ev) then next.byCall == st.byCall && next.fifo == st.fifo
                  else
                    var p := PendingShell(ev.toolName, ev.turnID, ev.correlationID, w.shellOps(ev.toolName, ev.fields));
                    if ev.callID != ""
                    then next.byCall == st.byCall[session + "\0" + ev.callID := p] && next.fifo == st.fifo
                    else
                      && next.byCall == st.byCall
                      && next.fifo == st.fifo[session := (if session in st.fifo then st.fifo[session] else []) + [p]])
            case ToolResult =>
              if !w.shellParser(session) then next.saved == st.saved && next.claims == st.claims
              else
                var p := Released(st, session, ev.callID);
                var b := if p == None then Built(st.claims, [])
                         else Record(st.claims, w, session, p.value.turnID, p.value.correlationID, p.value.toolName,
                                     p.value.ops, true);
                var c := Record(b.claims, w, session, ev.turnID, ev.correlationID,
                                if ev.toolName == "" then "command_execution" else ev.toolName,
                                w.shellOps(ev.toolName, ev.fields), true);
                next.claims == c.claims && next.saved == st.saved + b.events + c.events
            case OtherEntry => next == st
  {
    match ev.kind
    case ToolUse =>
      WaitsIsDefers(w, session, ev);
      UseIsRecord(st.claims, w, session, ev);
    case ToolResult =>
      AppendNothing(st.saved);
      if w.shellParser(session) {
        ResultIsRecord(st, w, session, ev);
      }
    case OtherEntry =>
  }

  lemma {:induction false} ResultIsRecord(st: State, w: World, session: string, ev: ToolEvent)
    requires w.shellParser(session)
    ensures var p, tool := Released(st, session, ev.callID),
                           if ev.toolName == "" then "command_execution" else ev.toolName;
            var b := if p == None then Built(st.claims, [])
                     else Record(st.claims, w, session, p.value.turnID, p.value.correlationID, p.value.toolName,
                                 p.value.ops, true);
            var c := Record(b.claims, w, session, ev.turnID, ev.correlationID, tool,
                            w.shellOps(ev.toolName, ev.fields), true);
            var next := Saved(Taken(st, session, ev.callID), w,
                              ResultRequests(w, session, ev, Released(st, session, ev.callID)));
            next.claims == c.claims && next.saved == st.saved + b.events + c.events
  {
    var p, tool := Released(st, session, ev.callID), if ev.toolName == "" then "command_execution" else ev.toolName;
    var first := if p == None then []
                 else ShellRequests(w, session, p.value.turnID, p.value.correlationID, p.value.toolName, p.value.ops);
    var second := ShellRequests(w, session, ev.turnID, ev.correlationID, tool, w.shellOps(ev.toolName, ev.fields));
    if p.Some? {
      ShellIsRecord(st.claims, w, session, p.value.turnID, p.value.correlationID, p.value.toolName, p.value.ops);
    }
    var b := BuildAll(st.claims, w, first);
    ShellIsRecord(b.claims, w, session, ev.turnID, ev.correlationID, tool, w.shellOps(ev.toolName, ev.fields));
    BuildAllAppend(st.claims, w, first, second);
    Regroup(st.saved, b.events, BuildAll(b.claims, w, second).events);
  }

  lemma {:induction false} BuildAllAppend(claims: set<string>, w: World, a: seq<Request>, b: seq<Request>)
    ensures var first := BuildAll(claims, w, a);
            var second := BuildAll(first.claims, w, b);
            BuildAll(claims, w, a + b) == Built(second.claims, first.events + second.events)
  {
    var first := BuildAll(claims, w, a);
    if b == [] {
      AppendNothing(a);
      AppendNothing(first.events);
    } else {
      var front, last := b[..|b| - 1], b[|b| - 1];
      BuildAllAppend(claims, w, a, front);
      FrontOfSum(a, b);
      var second := BuildAll(first.claims, w, front);
      Regroup(first.events, second.events, BuildOne(second.claims, w, last).events);
    }
  }

  /** What the flush does, exactly: the record of its operations under the name of the flush, if the structured
      collector is on. A single operation without a path saves nothing. */
  lemma {:induction false} FlushedExactly(st: State, w: World, session: string, turn: string, correlation: string,
                                          ops: seq<Change>)
    ensures var next := Flushed(st, w, session, turn, correlation, ops);
            var b := Record(st.claims, w, session, turn, correlation, "turn_files",
                            if w.structuredTool(session) then ChangeOps(ops) else [], false);
            next == st.(claims := b.claims, saved := st.saved + b.events)
  {
    AppendNothing(st.saved);
    if ops != [] && w.structuredTool(session) {
      FlushIsRecord(st.claims, w, session, Synthesized(turn, correlation, ops), turn, correlation, ops);
    }
  }

  lemma {:induction false} FlushIsRecord(claims: set<string>, w: World, session: string, ev: ToolEvent, turn: string,
                                         correlation: string, ops: seq<Change>)
    requires ops != [] && w.structuredTool(session) && ev == Synthesized(turn, correlation, ops)
    ensures BuildAll(claims, w, UseRequests(w, session, ev)) ==
            Record(claims, w, session, turn, correlation, "turn_files", ChangeOps(ops), false)
  {
    ChangesAreRecord(claims, w, session, ev, Entries(ev));
    if |ops| == 1 {
      assert ops == [ops[0]];
      if ops[0].path == "" {
        NothingToRecord(claims, w, session, turn, correlation, ops[0]);
      }
    }
  }

  /** A change without a path. */
  lemma {:induction false} NothingToRecord(claims: set<string>, w: World, session: string, turn: string,
                                           correlation: string, c: Change)
    requires c.path == ""
    ensures Record(claims, w, session, turn, correlation, "turn_files", ChangeOps([c]), false) == Built(claims, [])
  {
    assert [c][..0] == [] && ChangeOps([c])[..0] == [];
  }
}
