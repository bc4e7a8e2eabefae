/** File events extracted from tool calls: first-wins claims of the structured tools, deferred shell
    operations, and the flush at the end of a turn (artifact/analyzer: analyzer.go, turn_files.go and
    shell_emit.go). */
module Artifacts {
  import opened Wrappers
  import opened Seqs

  const CREATE := "create"
  const UPDATE := "update"
  const DELETE := "delete"
  const TURN_FILES := "turn_files"

  datatype EntryKind = ToolUse | ToolResult | OtherEntry

  datatype Change = Change(path: string, kind: string)

  /** The parts of a stream event the analyzer reads: string fields of the tool input, and its list of
      changes. */
  datatype ToolEvent = ToolEvent(kind: EntryKind, toolName: string, fields: map<string, string>, changes: seq<Change>,
                                 callID: string, turnID: string, correlationID: string)

  datatype FileOp = FileOp(path: string, operation: string)

  datatype ArtifactEvent = ArtifactEvent(sessionID: string, turnID: string, correlationID: string, key: string,
                                         actualPath: string, operation: string, toolName: string)

  /** What the analyzer asks of its surroundings at one call: path resolution, which paths exist, the
      shell parser, and which collectors are on for a session. */
  datatype World = World(resolve: (string, string) -> string, relative: (string, string) -> string,
                         onDisk: string -> bool, shellOps: (string, map<string, string>) -> seq<FileOp>,
                         structuredTool: string -> bool, shellParser: string -> bool)

  function Key(w: World, path: string, session: string): string {
    w.relative(w.resolve(path, session), session)
  }

  function Field(ev: ToolEvent, name: string): string {
    if name in ev.fields then ev.fields[name] else ""
  }

  function KindToOperation(kind: string): string {
    if kind == "add" || kind == "create" then CREATE
    else if kind == "update" then UPDATE
    else if kind == "delete" then DELETE
    else ""
  }

  predicate IsTier1(tool: string) {
    || tool == "file_change" || tool == "turn_diff" || tool == TURN_FILES || tool == "Write" || tool == "Edit"
    || tool == "MultiEdit" || tool == "NotebookEdit" || tool == "StrReplace" || tool == "Delete"
  }

  function SeenKey(session: string, turn: string, key: string): string {
    session + "\0" + turn + "\0" + key
  }

  function SeenKeyOf(e: ArtifactEvent): string {
    SeenKey(e.sessionID, e.turnID, e.key)
  }

  // ---------------------------------------------------------------- building events

  datatype Request = Request(session: string, turn: string, correlation: string, tool: string, path: string,
                             operation: string)

  datatype Built = Built(claims: set<string>, events: seq<ArtifactEvent>)

  function EventFor(w: World, r: Request): ArtifactEvent {
    ArtifactEvent(r.session, r.turn, r.correlation, Key(w, r.path, r.session), w.resolve(r.path, r.session),
                  r.operation, r.tool)
  }

  /** buildEvent: a structured tool claims its key or is refused, any other is refused on a claimed key. */
  function BuildOne(claims: set<string>, w: World, r: Request): Built {
    var k := SeenKey(r.session, r.turn, Key(w, r.path, r.session));
    if r.path == "" || r.operation == "" || k in claims then Built(claims, [])
    else Built(if IsTier1(r.tool) then claims + {k} else claims, [EventFor(w, r)])
  }

  function BuildAll(claims: set<string>, w: World, rs: seq<Request>): Built {
    if rs == [] then Built(claims, [])
    else
      var b := BuildAll(claims, w, rs[..|rs| - 1]);
      var c := BuildOne(b.claims, w, rs[|rs| - 1]);
      Built(c.claims, b.events + c.events)
  }

  lemma {:induction false} BuildAllSnoc(claims: set<string>, w: World, rs: seq<Request>, r: Request)
    ensures var b := BuildAll(claims, w, rs);
            var c := BuildOne(b.claims, w, r);
            BuildAll(claims, w, rs + [r]) == Built(c.claims, b.events + c.events)
  {
    Front(rs, r);
  }

  // ---------------------------------------------------------------- what an event asks for

  /** The path fields each mapped tool looks at, in order, and its operation. */
  function PathFields(tool: string): seq<string> {
    match tool
    case "Write" => ["path", "file_path"]
    case "StrReplace" => ["path"]
    case "Delete" => ["path"]
    case "Edit" => ["file_path", "path"]
    case "MultiEdit" => ["file_path", "path"]
    case "NotebookEdit" => ["notebook_path", "file_path"]
    case _ => []
  }

  function MappedOperation(tool: string): string {
    match tool
    case "Write" => CREATE
    case "Delete" => DELETE
    case _ => UPDATE
  }

  function FirstField(ev: ToolEvent, names: seq<string>): string {
    if names == [] then "" else if Field(ev, names[0]) != "" then Field(ev, names[0]) else FirstField(ev, names[1..])
  }

  function Entries(ev: ToolEvent): seq<Change> {
    if Field(ev, "path") != "" then [Change(Field(ev, "path"), Field(ev, "kind"))] else ev.changes
  }

  function ChangeRequests(session: string, ev: ToolEvent, changes: seq<Change>): seq<Request> {
    if changes == [] then []
    else
      var last := changes[|changes| - 1];
      ChangeRequests(session, ev, changes[..|changes| - 1]) +
      [Request(session, ev.turnID, ev.correlationID, ev.toolName, last.path, KindToOperation(last.kind))]
  }

  /** emitShellOps: creations and updates of paths that do not exist are dropped. */
  function ShellRequests(w: World, session: string, turn: string, correlation: string, tool: string, ops: seq<FileOp>)
    : seq<Request>
  {
    if ops == [] then []
    else
      var last := ops[|ops| - 1];
      ShellRequests(w, session, turn, correlation, tool, ops[..|ops| - 1]) +
      (if last.operation == DELETE || w.onDisk(w.resolve(last.path, session))
       then [Request(session, turn, correlation, tool, last.path, last.operation)] else [])
  }

  predicate IsChangeTool(tool: string) {
    tool == "file_change" || tool == "turn_diff" || tool == TURN_FILES
  }

  predicate IsShellTool(tool: string) {
    tool == "command_execution" || tool == "Bash" || tool == "shell" || tool == "shell_command"
  }

  function UseRequests(w: World, session: string, ev: ToolEvent): seq<Request> {
    if IsChangeTool(ev.toolName) then
      if w.structuredTool(session) then ChangeRequests(session, ev, Entries(ev)) else []
    else if IsShellTool(ev.toolName) then
      if w.shellParser(session) && Field(ev, "execution_status") == "completed"
      then ShellRequests(w, session, ev.turnID, ev.correlationID, ev.toolName, w.shellOps(ev.toolName, ev.fields))
      else []
    else if w.structuredTool(session) then
      [Request(session, ev.turnID, ev.correlationID, ev.toolName, FirstField(ev, PathFields(ev.toolName)),
               MappedOperation(ev.toolName))]
    else []
  }

  // ---------------------------------------------------------------- deferred shell operations

  datatype PendingShell = PendingShell(toolName: string, turnID: string, correlationID: string, ops: seq<FileOp>)

  function PendingKey(session: string, callID: string): string {
    session + "\0" + callID
  }

  predicate Defers(w: World, session: string, ev: ToolEvent) {
    && ev.kind == ToolUse && IsShellTool(ev.toolName) && ev.toolName != "command_execution"
    && w.shellParser(session) && w.shellOps(ev.toolName, ev.fields) != []
    && Field(ev, "execution_status") != "started" && Field(ev, "execution_status") != "completed"
  }

  /** The analyzer's fields, and what has been saved to the store in order. */
  datatype State = State(claims: set<string>, byCall: map<string, PendingShell>, fifo: map<string, seq<PendingShell>>,
                         saved: seq<ArtifactEvent>)

  const EMPTY := State({}, map[], map[], [])

  function Queue(fifo: map<string, seq<PendingShell>>, session: string): seq<PendingShell> {
    if session in fifo then fifo[session] else []
  }

  function Stashed(st: State, session: string, callID: string, p: PendingShell): State {
    if callID != "" then st.(byCall := st.byCall[PendingKey(session, callID) := p])
    else st.(fifo := st.fifo[session := Queue(st.fifo, session) + [p]])
  }

  predicate ByCall(st: State, session: string, callID: string) {
    callID != "" && PendingKey(session, callID) in st.byCall
  }

  /** What a tool result releases, if anything. */
  function Released(st: State, session: string, callID: string): Option<PendingShell> {
    if ByCall(st, session, callID) then Some(st.byCall[PendingKey(session, callID)])
    else if Queue(st.fifo, session) == [] then None
    else Some(Queue(st.fifo, session)[0])
  }

  function Taken(st: State, session: string, callID: string): State {
    if ByCall(st, session, callID) then st.(byCall := st.byCall - {PendingKey(session, callID)})
    else if Queue(st.fifo, session) == [] then st
    else st.(fifo := st.fifo[session := Queue(st.fifo, session)[1..]])
  }

  function ResultRequests(w: World, session: string, ev: ToolEvent, released: Option<PendingShell>): seq<Request> {
    if !w.shellParser(session) then []
    else
      (if released == None then []
       else ShellRequests(w, session, released.value.turnID, released.value.correlationID, released.value.toolName,
                          released.value.ops)) +
      ShellRequests(w, session, ev.turnID, ev.correlationID,
                    if ev.toolName == "" then "command_execution" else ev.toolName, w.shellOps(ev.toolName, ev.fields))
  }

  function Saved(st: State, w: World, rs: seq<Request>): State {
    var b := BuildAll(st.claims, w, rs);
    st.(claims := b.claims, saved := st.saved + b.events)
  }

  /** onEntry. */
  function Entered(st: State, w: World, session: string, ev: ToolEvent): State {
    match ev.kind
    case ToolResult =>
      Saved(Taken(st, session, ev.callID), w, ResultRequests(w, session, ev, Released(st, session, ev.callID)))
    case ToolUse =>
      var stashed :=
        if Defers(w, session, ev)
        then Stashed(st, session, ev.callID,
                     PendingShell(ev.toolName, ev.turnID, ev.correlationID, w.shellOps(ev.toolName, ev.fields)))
        else st;
      Saved(stashed, w, UseRequests(w, session, ev))
    case OtherEntry => st
  }

  // ---------------------------------------------------------------- the end of a turn

  function WriteFamilyKind(tool: string): string {
    match tool
    case "Write" => "add"
    case "Delete" => "delete"
    case "Edit" => "update"
    case "MultiEdit" => "update"
    case "NotebookEdit" => "update"
    case "StrReplace" => "update"
    case _ => ""
  }

  const COLLECTED_FIELDS := ["file_path", "path", "notebook_path"]

  predicate TouchesFile(ev: ToolEvent) {
    ev.kind == ToolUse && WriteFamilyKind(ev.toolName) != "" && FirstField(ev, COLLECTED_FIELDS) != ""
  }

  function Collected(events: seq<ToolEvent>): seq<Change> {
    if events == [] then []
    else
      var last := events[|events| - 1];
      Collected(events[..|events| - 1]) +
      (if TouchesFile(last) then [Change(FirstField(last, COLLECTED_FIELDS), WriteFamilyKind(last.toolName))] else [])
  }

  method CollectClaudeTier1OpsFromStream(events: seq<ToolEvent>) returns (ops: seq<Change>)
    ensures ops == Collected(events)
  {
    ops := [];
    for i := 0 to |events|
      invariant ops == Collected(events[..i])
    {
      OneMore(events, i);
      var ev := events[i];
      if ev.kind == ToolUse {
        var kind := WriteFamilyKind(ev.toolName);
        if kind != "" {
          var path := FirstField(ev, COLLECTED_FIELDS);
          if path != "" {
            ops := ops + [Change(path, kind)];
          }
        }
      }
    }
    Whole(events);
  }

  /** One operation travels in the path and kind fields, several in the list of changes. */
  function Synthesized(turn: string, correlation: string, ops: seq<Change>): ToolEvent {
    if |ops| == 1
    then ToolEvent(ToolUse, TURN_FILES, map["path" := ops[0].path, "kind" := ops[0].kind], [], "", turn, correlation)
    else ToolEvent(ToolUse, TURN_FILES, map[], ops, "", turn, correlation)
  }

  /** FlushTurnFiles. */
  function Flushed(st: State, w: World, session: string, turn: string, correlation: string, ops: seq<Change>): State {
    if ops == [] then st else Saved(st, w, UseRequests(w, session, Synthesized(turn, correlation, ops)))
  }

  // ---------------------------------------------------------------- the analyzer

  class ToolCallAnalyzer {
    var seenTier1Keys: set<string>
    var pendingShellByCall: map<string, PendingShell>
    var pendingShellFIFO: map<string, seq<PendingShell>>
    var saved: seq<ArtifactEvent>

    function View(): State
      reads this
    {
      State(seenTier1Keys, pendingShellByCall, pendingShellFIFO, saved)
    }

    constructor ()
      ensures View() == EMPTY
    {
      seenTier1Keys, pendingShellByCall, pendingShellFIFO, saved := {}, map[], map[], [];
    }

    method BuildEvent(w: World, r: Request) returns (e: Option<ArtifactEvent>)
      modifies this`seenTier1Keys
      ensures var b := BuildOne(old(seenTier1Keys), w, r);
              seenTier1Keys == b.claims && b.events == if e.Some? then [e.value] else []
    {
      if r.path == "" || r.operation == "" {
        return None;
      }
      var k := SeenKey(r.session, r.turn, Key(w, r.path, r.session));
      if k in seenTier1Keys {
        return None;
      }
      if IsTier1(r.tool) {
        seenTier1Keys := seenTier1Keys + {k};
      }
      return Some(EventFor(w, r));
    }

    method BuildEvents(w: World, rs: seq<Request>) returns (events: seq<ArtifactEvent>)
      modifies this`seenTier1Keys
      ensures BuildAll(old(seenTier1Keys), w, rs) == Built(seenTier1Keys, events)
    {
      events := [];
      for i := 0 to |rs|
        invariant BuildAll(old(seenTier1Keys), w, rs[..i]) == Built(seenTier1Keys, events)
      {
        assert rs[..i + 1] == rs[..i] + [rs[i]];
        BuildAllSnoc(old(seenTier1Keys), w, rs[..i], rs[i]);
        var e := BuildEvent(w, rs[i]);
        if e.Some? {
          events := events + [e.value];
        }
      }
      Whole(rs);
    }

    method StashPendingShell(session: string, callID: string, p: PendingShell)
      modifies this`pendingShellByCall, this`pendingShellFIFO
      ensures View() == Stashed(old(View()), session, callID, p)
    {
      if callID != "" {
        pendingShellByCall := pendingShellByCall[PendingKey(session, callID) := p];
        return;
      }
      pendingShellFIFO := pendingShellFIFO[session := Queue(pendingShellFIFO, session) + [p]];
    }

    method TakePendingShell(session: string, callID: string) returns (p: Option<PendingShell>)
      modifies this`pendingShellByCall, this`pendingShellFIFO
      ensures View() == Taken(old(View()), session, callID) && p == Released(old(View()), session, callID)
    {
      if callID != "" {
        var k := PendingKey(session, callID);
        if k in pendingShellByCall {
          p := Some(pendingShellByCall[k]);
          pendingShellByCall := pendingShellByCall - {k};
          return;
        }
      }
      var q := Queue(pendingShellFIFO, session);
      if |q| == 0 {
        return None;
      }
      p := Some(q[0]);
      pendingShellFIFO := pendingShellFIFO[session := q[1..]];
    }

    method OnEntry(w: World, session: string, ev: ToolEvent)
      modifies this
      ensures View() == Entered(old(View()), w, session, ev)
    {
      var events := [];
      match ev.kind {
        case ToolResult =>
          var p := TakePendingShell(session, ev.callID);
          events := BuildEvents(w, ResultRequests(w, session, ev, p));
        case ToolUse =>
          if Defers(w, session, ev) {
            StashPendingShell(session, ev.callID, PendingShell(ev.toolName, ev.turnID, ev.correlationID,
                                                               w.shellOps(ev.toolName, ev.fields)));
          }
          events := BuildEvents(w, UseRequests(w, session, ev));
        case OtherEntry =>
          return;
      }
      saved := saved + events;
    }

    method FlushTurnFiles(w: World, session: string, turn: string, correlation: string, ops: seq<Change>)
      modifies this
      ensures View() == Flushed(old(View()), w, session, turn, correlation, ops)
    {
      if |ops| == 0 {
        return;
      }
      var events := BuildEvents(w, UseRequests(w, session, Synthesized(turn, correlation, ops)));
      saved := saved + events;
    }
  }
}
