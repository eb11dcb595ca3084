/**
 * The agent loop as a state machine, after `src/core/agent.ts`, `src/core/tool.ts` and
 * `src/memory/in-memory-session-store.ts`.
 *
 * What the model answers and what a tool does are parameters, indexed by how many calls were made so far:
 * a statement about every `Setup` is a statement about every behaviour of model and tools.
 */
module Agent {
  import opened Basics
  import Approvals

  datatype Part =
    | Text(text: string)
    | ToolCall(id: string, name: string, input: string)
    | ToolResult(callId: string, content: string, isError: bool)

  datatype Role = User | Assistant

  datatype Message = Message(role: Role, content: seq<Part>)

  datatype StopReason = EndTurn | ToolUse | MaxTokens | Refusal

  /** A model call answers, or raises. */
  datatype ModelOutcome = Response(content: seq<Part>, stop: StopReason) | Raises(message: string)

  /** Input a tool's schema refuses is not run; a tool that is run returns or throws. */
  datatype ToolOutcome = InvalidInput(message: string) | Returns(content: string, isError: bool) | Throws(message: string)

  /** What a turn runs as: its tools, each with whether it needs approval, and its budget. */
  datatype Scope = Scope(tools: map<string, bool>, maxIterations: nat)

  datatype Setup = Setup(
    fallback: Scope,
    modules: Option<map<string, Scope>>,
    hasQueue: bool,
    model: nat -> ModelOutcome,
    tool: nat -> ToolOutcome)

  /**
   * A tool is logged when it runs: `turn` is the position of the message that asked for it, `nth` how many times tools
   * had been asked before.
   */
  datatype Event =
    | Sent(session: nat, history: seq<Message>)
    | Executed(session: nat, turn: nat, call: Part, scope: Scope, nth: nat)
    | Decided(approval: nat, status: Approvals.Status)

  datatype World = World(
    owner: map<nat, string>,
    messages: map<nat, seq<Message>>,
    nextSession: nat,
    queue: Approvals.Queue,
    modelCalls: nat,
    toolCalls: nat,
    log: seq<Event>)

  const NEW := World(map[], map[], 0, Approvals.EMPTY, 0, 0, [])

  datatype Turn = Turn(tenant: string, session: nat, scope: Scope)

  datatype Reply =
    | Answered(stop: StopReason)
    | Paused(pending: seq<Approvals.Approval>)
    | IterationLimit
    | Failed

  predicate Gated(scope: Scope, name: string) { name in scope.tools && scope.tools[name] }

  function Calls(content: seq<Part>): (calls: seq<Part>)
    ensures forall c :: c in calls <==> c in content && c.ToolCall?
  {
    Filter((p: Part) => p.ToolCall?, content)
  }

  function Messages(w: World, session: nat): seq<Message> {
    if session in w.messages then w.messages[session] else []
  }

  function Append(w: World, session: nat, m: Message): World {
    w.(messages := w.messages[session := Messages(w, session) + [m]])
  }

  /** The module named by the turn; a name nobody registered is refused. */
  function ScopeOf(s: Setup, moduleId: Option<string>): Option<Scope> {
    if moduleId.None? || s.modules.None? then Some(s.fallback)
    else if moduleId.value in s.modules.value then Some(s.modules.value[moduleId.value])
    else None
  }

  // ---------------------------------------------------------------------------------------------
  // Running the calls of a turn

  function Result(call: Part, content: string, isError: bool): Part
    requires call.ToolCall?
  {
    ToolResult(call.id, content, isError)
  }

  /** The registry: an unknown tool, or input its schema refuses, is an error result and runs nothing. */
  function Execute(s: Setup, w: World, t: Turn, turn: nat, call: Part): (World, Part)
    requires call.ToolCall?
  {
    if call.name !in t.scope.tools then (w, Result(call, "unknown tool \"" + call.name + "\"", true))
    else
      var w1 := w.(toolCalls := w.toolCalls + 1);
      var ran := w1.(log := w.log + [Executed(t.session, turn, call, t.scope, w.toolCalls)]);
      match s.tool(w.toolCalls)
      case InvalidInput(message) => (w1, Result(call, "invalid input for \"" + call.name + "\": " + message, true))
      case Returns(content, isError) => (ran, Result(call, content, isError))
      case Throws(message) => (ran, Result(call, "tool \"" + call.name + "\" failed: " + message, true))
  }

  function Why(text: Option<string>, otherwise: string): string {
    if text.Some? then text.value else otherwise
  }

  /** A gated call runs only when its approval says so; every other answer is an error result for the model. */
  function RunCall(s: Setup, w: World, t: Turn, turn: nat, call: Part, approval: Option<Approvals.Approval>): (World, Part)
    requires call.ToolCall?
  {
    var named := "tool \"" + call.name + "\"";
    if !Gated(t.scope, call.name) then Execute(s, w, t, turn, call)
    else if !s.hasQueue then (w, Result(call, named + " requires human approval, which is not configured", true))
    else if approval.None? || approval.value.status == Approvals.Pending then (w, Result(call, named + " is not approved", true))
    else if approval.value.status == Approvals.Rejected then
      var because := if approval.value.reason.Some? && approval.value.reason.value != "" then ": " + approval.value.reason.value else "";
      (w, Result(call, named + " was rejected by " + Why(approval.value.decidedBy, "an operator") + because, true))
    else if approval.value.status == Approvals.ChangesRequested then
      (w, Result(call, Why(approval.value.decidedBy, "an operator") + " asked for changes before \"" + call.name + "\" runs: "
                       + Why(approval.value.reason, "") + ". Call it again with that addressed.", true))
    else Execute(s, w, t, turn, call)
  }

  function DecisionFor(decisions: seq<Approvals.Approval>, id: string): Option<Approvals.Approval> {
    if decisions == [] then None
    else if decisions[0].toolCallId == id then Some(decisions[0])
    else DecisionFor(decisions[1..], id)
  }

  ghost predicate AllCalls(calls: seq<Part>) {
    forall i :: 0 <= i < |calls| ==> calls[i].ToolCall?
  }

  /** The results, one for each call, in the order of the calls. */
  function RunCalls(s: Setup, w: World, t: Turn, turn: nat, calls: seq<Part>, decisions: seq<Approvals.Approval>): (World, seq<Part>)
    requires AllCalls(calls)
    decreases |calls|
  {
    if calls == [] then (w, [])
    else
      var (w1, result) := RunCall(s, w, t, turn, calls[0], DecisionFor(decisions, calls[0].id));
      var (w2, rest) := RunCalls(s, w1, t, turn, calls[1..], decisions);
      (w2, [result] + rest)
  }

  datatype Settlement = Ready(results: seq<Part>) | Waiting(pending: seq<Approvals.Approval>) | Refused

  function Ids(calls: seq<Part>): set<string> {
    set c | c in calls && c.ToolCall? :: c.id
  }

  function RequestFor(t: Turn, call: Part): Approvals.Request
    requires call.ToolCall?
  {
    Approvals.Request(t.tenant, t.session, call.id, call.name, call.input)
  }

  function RequestsFor(t: Turn, calls: seq<Part>): (r: seq<Approvals.Request>)
    requires AllCalls(calls)
    ensures |r| == |calls| && forall i :: 0 <= i < |r| ==> r[i] == RequestFor(t, calls[i])
  {
    if calls == [] then [] else [RequestFor(t, calls[0])] + RequestsFor(t, calls[1..])
  }

  function GatedCalls(scope: Scope, calls: seq<Part>): (r: seq<Part>)
    ensures AllCalls(r)
  {
    var r := Filter((c: Part) => c.ToolCall? && Gated(scope, c.name), calls);
    assert forall i :: 0 <= i < |r| ==> r[i] in r;
    r
  }

  function Undecided(calls: seq<Part>, existing: seq<Approvals.Approval>): (r: seq<Part>)
    requires AllCalls(calls)
    ensures AllCalls(r)
  {
    var r := Filter((c: Part) => c.ToolCall? && DecisionFor(existing, c.id).None?, calls);
    assert forall i :: 0 <= i < |r| ==> r[i] in r;
    r
  }

  function PendingOf(decisions: seq<Approvals.Approval>): seq<Approvals.Approval> {
    Filter((a: Approvals.Approval) => a.status == Approvals.Pending, decisions)
  }

  /** Nothing of a turn runs while any of its gated calls is undecided. */
  function Settle(s: Setup, w: World, t: Turn, turn: nat, calls: seq<Part>): (World, Settlement)
    requires AllCalls(calls)
  {
    var gated := GatedCalls(t.scope, calls);
    if gated == [] || !s.hasQueue then
      var (w1, results) := RunCalls(s, w, t, turn, calls, []);
      (w1, Ready(results))
    else
      var existing := Approvals.RowsFor(w.queue, t.tenant, t.session, Ids(gated));
      var asked := Approvals.RequestAll(w.queue, RequestsFor(t, Undecided(gated, existing)));
      var w1 := w.(queue := asked.queue);
      var decisions := existing + asked.created;
      if asked.refused.Some? then (w1, Refused)
      else if PendingOf(decisions) != [] then (w1, Waiting(PendingOf(decisions)))
      else
        var (w2, results) := RunCalls(s, w1, t, turn, calls, decisions);
        (w2, Ready(results))
  }

  // ---------------------------------------------------------------------------------------------
  // The loop

  lemma CallsAreCalls(content: seq<Part>)
    ensures AllCalls(Calls(content))
  {
    forall i | 0 <= i < |Calls(content)| ensures Calls(content)[i].ToolCall? {
      assert Calls(content)[i] in Calls(content);
    }
  }

  /** The request goes out with the conversation as it stands. */
  function Asked(w: World, session: nat): World {
    w.(modelCalls := w.modelCalls + 1, log := w.log + [Sent(session, Messages(w, session))])
  }

  function Drive(s: Setup, w: World, t: Turn, iteration: nat): (World, Reply)
    decreases t.scope.maxIterations - iteration
  {
    if iteration >= t.scope.maxIterations then (w, IterationLimit)
    else
      match s.model(w.modelCalls)
      case Raises(_) => (Asked(w, t.session), Failed)
      case Response(content, stop) =>
        var w1 := Append(Asked(w, t.session), t.session, Message(Assistant, content));
        if stop != ToolUse || Calls(content) == [] then (w1, Answered(if stop == ToolUse then EndTurn else stop))
        else
          CallsAreCalls(content);
          var (w2, settlement) := Settle(s, w1, t, |Messages(w, t.session)|, Calls(content));
          match settlement
          case Refused => (w2, Failed)
          case Waiting(pending) => (w2, Paused(pending))
          case Ready(results) => Drive(s, Append(w2, t.session, Message(User, results)), t, iteration + 1)
  }

  predicate Visible(w: World, tenant: string, session: nat) {
    session in w.owner && w.owner[session] == tenant
  }

  function Run(s: Setup, w: World, tenant: string, session: nat, input: string, moduleId: Option<string>): (World, Reply) {
    var scope := ScopeOf(s, moduleId);
    if scope.None? || !Visible(w, tenant, session) then (w, Failed)
    else Drive(s, Append(w, session, Message(User, [Text(input)])), Turn(tenant, session, scope.value), 0)
  }

  /** The calls of the turn a session is paused on, if it is. */
  function HeldCalls(history: seq<Message>): seq<Part> {
    if history == [] || history[|history| - 1].role != Assistant then [] else Calls(history[|history| - 1].content)
  }

  function Resume(s: Setup, w: World, tenant: string, session: nat, moduleId: Option<string>): (World, Reply) {
    var scope := ScopeOf(s, moduleId);
    var history := Messages(w, session);
    if scope.None? || !Visible(w, tenant, session) || HeldCalls(history) == [] then (w, Failed)
    else
      var t := Turn(tenant, session, scope.value);
      CallsAreCalls(history[|history| - 1].content);
      var (w1, settlement) := Settle(s, w, t, |history| - 1, HeldCalls(history));
      match settlement
      case Refused => (w1, Failed)
      case Waiting(pending) => (w1, Paused(pending))
      case Ready(results) => Drive(s, Append(w1, session, Message(User, results)), t, 0)
  }

  function DecideOn(w: World, tenant: string, id: nat, status: Approvals.Status, who: string, reason: Option<string>): World
    requires status != Approvals.Pending
  {
    if Approvals.CanDecide(w.queue, tenant, id)
    then w.(queue := Approvals.Decided(w.queue, tenant, id, status, who, reason), log := w.log + [Decided(id, status)])
    else w
  }

  function Open(w: World, tenant: string): World {
    w.(owner := w.owner[w.nextSession := tenant], messages := w.messages[w.nextSession := []], nextSession := w.nextSession + 1)
  }

  datatype Action =
    | DoOpen(tenant: string)
    | DoRun(tenant: string, session: nat, input: string, moduleId: Option<string>)
    | DoResume(tenant: string, session: nat, moduleId: Option<string>)
    | DoDecide(tenant: string, approval: nat, status: Approvals.Status, who: string, reason: Option<string>)

  function Apply(s: Setup, w: World, a: Action): World {
    match a
    case DoOpen(tenant) => Open(w, tenant)
    case DoRun(tenant, session, input, moduleId) => Run(s, w, tenant, session, input, moduleId).0
    case DoResume(tenant, session, moduleId) => Resume(s, w, tenant, session, moduleId).0
    case DoDecide(tenant, id, status, who, reason) =>
      if status == Approvals.Pending then w else DecideOn(w, tenant, id, status, who, reason)
  }

  function ExecuteAll(s: Setup, w: World, actions: seq<Action>): World
    decreases |actions|
  {
    if actions == [] then w else ExecuteAll(s, Apply(s, w, actions[0]), actions[1..])
  }
}
