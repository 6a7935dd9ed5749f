/**
 * The session-creation endpoint (frontend/app/api/sessions/route.ts, `POST`): validate
 * the body, create the session, decompose the prompt, then either mark the session
 * failed or add its todos, announce each on the session's room and spawn the workers.
 * The model call and the parsing of its reply are one abstract result: the list of
 * todo descriptions, or nothing when any step of it throws.
 */
module SessionsRoute {
  import opened Wrappers
  import opened Js
  import Strings
  import opened SessionStore
  import Socket
  import WorkerManager

  /** What the handler answers: a JSON reply with a status, or an exception that escapes
      the handler. */
  datatype Reply = Json(status: int, body: Value) | Unhandled(error: string)

  function ErrorBody(message: string): Value {
    Obj(map["error" := Str(message)])
  }

  const PromptRequired := "Prompt is required"
  const AgentCountRange := "agentCount must be between 1 and 4"
  const DecomposeFailed := "Failed to decompose prompt"
  const TaskCreated := "task:created"

  function Room(sessionId: string): string {
    "session:" + sessionId
  }

  /** The prompt check: present, a string, and not only whitespace. */
  predicate PromptValid(v: Value) {
    Truthy(v) && v.Str? && |Strings.Trim(v.s)| != 0
  }

  lemma PromptValidIff(v: Value)
    ensures PromptValid(v) <==> v.Str? && !Strings.AllWhitespace(v.s)
  {
    if v.Str? {
      Strings.TrimEmptyIff(v.s);
    }
  }

  /** The agent-count check as written: truthy, a number, and neither below 1 nor above 4. */
  predicate AgentCountAcceptedAsWritten(v: Value) {
    Truthy(v) && v.Num? && !(v.n < 1.0) && !(v.n > 4.0)
  }

  /** How often `for (let i = 0; i < c; i++)` runs: the least integer not below `c`. */
  function LoopIterations(c: real): (r: nat)
    ensures c <= 0.0 ==> r == 0
    ensures c > 0.0 ==> (r as real) >= c && (r as real) - 1.0 < c
  {
    if c <= 0.0 then 0
    else if c.Floor as real == c then c.Floor
    else c.Floor + 1
  }

  /** The check as written accepts a fractional count: 2.5 passes, the session records
      2.5 agents and the spawn loop starts 3 workers. */
  lemma FractionalAgentCountAccepted()
    ensures AgentCountAcceptedAsWritten(Num(2.5))
    ensures LoopIterations(2.5) == 3 && (LoopIterations(2.5) as real) != 2.5
  {
  }

  /** The intended check: additionally a whole number. */
  predicate AgentCountValid(v: Value) {
    AgentCountAcceptedAsWritten(v) && IsInteger(v)
  }

  /** The intended check accepts exactly the counts 1 to 4, and for them the spawn loop
      starts exactly the requested number of workers. */
  lemma AgentCountValidIff(v: Value)
    ensures AgentCountValid(v) <==> v == Num(1.0) || v == Num(2.0) || v == Num(3.0) || v == Num(4.0)
    ensures AgentCountValid(v) ==> LoopIterations(v.n) as real == v.n
  {
    if AgentCountValid(v) {
      var k := v.n.Floor;
      assert 1 <= k <= 4;
      assert k == 1 || k == 2 || k == 3 || k == 4;
    }
  }

  function RequestedAgents(v: Value): (n: nat)
    requires AgentCountValid(v)
    ensures 1 <= n <= 4 && n as real == v.n
  {
    v.n.Floor
  }

  /** One `task:created` event per todo, on the session's room, in todo order. */
  function TaskCreatedEvents(room: string, todos: seq<Todo>): (r: seq<Socket.Event>)
    ensures |r| == |todos|
    ensures forall i :: 0 <= i < |r| ==> r[i] == Socket.Event(room, TaskCreated, todos[i])
  {
    if |todos| == 0 then []
    else TaskCreatedEvents(room, todos[..|todos| - 1]) + [Socket.Event(room, TaskCreated, todos[|todos| - 1])]
  }

  /** The session a successful request leaves in the store: the (trimmed) prompt, the
      decomposed todos in order, and one booting agent per requested worker. */
  function CreatedSession(sessionId: string, prompt: string, n: nat, todoIds: seq<string>,
                          descriptions: seq<string>, agentIds: seq<string>): (s: Session)
    requires |todoIds| == |descriptions|
    ensures s.id == sessionId && s.prompt == prompt && s.agentCount == n
    ensures s.status == Decomposing && s.whiteboard == "" && s.userId == None
    ensures s.todos == NewTodos(todoIds, descriptions)
    ensures s.agents == WorkerManager.BootingAgents(sessionId, agentIds)
  {
    Session(sessionId, prompt, n, Decomposing, NewTodos(todoIds, descriptions),
            WorkerManager.BootingAgents(sessionId, agentIds), "", None)
  }

  /** The outcome of the two input checks, in the order the handler makes them. */
  datatype Checked = Rejected(reply: Reply) | Accepted(prompt: string, agentCount: nat)

  /** The body checks: a `null` body (or none) throws while destructuring; then the prompt, then the
      agent count, each with its own 400 reply. */
  function Check(body: Value): (r: Checked)
    ensures Nullish(body) ==> r.Rejected? && r.reply.Unhandled?
    ensures !Nullish(body) && !PromptValid(Get(body, "prompt").value) ==>
      r == Rejected(Json(400, ErrorBody(PromptRequired)))
    ensures !Nullish(body) && PromptValid(Get(body, "prompt").value) && !AgentCountValid(Get(body, "agentCount").value) ==>
      r == Rejected(Json(400, ErrorBody(AgentCountRange)))
    ensures r.Accepted? <==> !Nullish(body) && PromptValid(Get(body, "prompt").value) && AgentCountValid(Get(body, "agentCount").value)
    ensures r.Accepted? ==>
      Get(body, "prompt").value == Str(r.prompt) && !Strings.AllWhitespace(r.prompt)
      && 1 <= r.agentCount <= 4 && Get(body, "agentCount").value == Num(r.agentCount as real)
  {
    if Nullish(body) then Rejected(Unhandled(Get(body, "prompt").error))
    else
      var prompt := Get(body, "prompt").value;
      var agentCount := Get(body, "agentCount").value;
      if !PromptValid(prompt) then Rejected(Json(400, ErrorBody(PromptRequired)))
      else if !AgentCountValid(agentCount) then Rejected(Json(400, ErrorBody(AgentCountRange)))
      else
        PromptValidIff(prompt);
        Accepted(prompt.s, RequestedAgents(agentCount))
  }

  /** The emit loop: one `task:created` per todo on the session's room, when a socket
      server is configured; without one nothing is emitted and nothing fails. */
  method Announce(slot: Socket.IoSlot, sessionId: string, todos: seq<Todo>)
    modifies slot.server
    ensures slot.server != null ==>
      slot.server.emitted == old(slot.server.emitted) + TaskCreatedEvents(Room(sessionId), todos)
  {
    var io := slot.GetIO();
    if io.Failure? {
      return;
    }
    var hub := io.value;
    for i := 0 to |todos|
      invariant hub.emitted == old(hub.emitted) + TaskCreatedEvents(Room(sessionId), todos[..i])
    {
      hub.Emit(Room(sessionId), TaskCreated, todos[i]);
      assert todos[..i + 1][..i] == todos[..i];
    }
    assert todos[..|todos|] == todos;
  }

  /** Creating the session and then failing to decompose its prompt: the route itself
      sets the stored session's status to `failed`. */
  method CreateFailed(store: Store, sessionId: string, prompt: string, n: nat)
    modifies store
    ensures store.sessions == old(store.sessions)[sessionId :=
      Session(sessionId, prompt, n, Failed, [], [], "", None)]
  {
    var created := store.CreateSession(sessionId, prompt, n, None);
    var session := store.GetSession(sessionId);
    if session.Some? {
      store.sessions := store.sessions[sessionId := session.value.(status := Failed)];
    }
  }

  /** Creating the session under the trimmed prompt, adding the decomposed todos and
      announcing each of them. */
  method Populate(store: Store, slot: Socket.IoSlot, prompt: string, n: nat, sessionId: string,
                  descriptions: seq<string>, todoIds: seq<string>)
    requires |todoIds| == |descriptions|
    modifies store, slot.server
    ensures store.sessions == old(store.sessions)[sessionId :=
      Session(sessionId, prompt, n, Decomposing, NewTodos(todoIds, descriptions), [], "", None)]
    ensures slot.server != null ==>
      slot.server.emitted == old(slot.server.emitted)
        + TaskCreatedEvents(Room(sessionId), NewTodos(todoIds, descriptions))
  {
    ghost var before := store.sessions;
    var created := store.CreateSession(sessionId, prompt, n, None);
    var added := store.AddTodos(sessionId, descriptions, todoIds);
    TodosAdded(created, todoIds, descriptions);
    Overwrite(before, sessionId, created, WithTodos(created, todoIds, descriptions));
    Announce(slot, sessionId, added.value);
  }

  /** The handler after both checks passed and the prompt was decomposed: create the
      session under the trimmed prompt, add the todos, announce them and spawn the workers. */
  method Launch(store: Store, slot: Socket.IoSlot, sup: WorkerManager.Supervisor,
                prompt: string, n: nat, sessionId: string, descriptions: seq<string>,
                todoIds: seq<string>, agentIds: seq<string>, processes: seq<WorkerManager.Handle>)
    requires |todoIds| == |descriptions|
    requires |agentIds| == n && |processes| == n
    modifies store, sup, slot.server
    ensures store.sessions == old(store.sessions)[sessionId :=
      CreatedSession(sessionId, prompt, n, todoIds, descriptions, agentIds)]
    ensures slot.server != null ==>
      slot.server.emitted == old(slot.server.emitted)
        + TaskCreatedEvents(Room(sessionId), NewTodos(todoIds, descriptions))
    ensures sessionId in sup.workerProcesses
    ensures sup.workerProcesses[sessionId].entries == WorkerManager.SetAll(agentIds, processes)
    ensures sup.killed == old(sup.killed)
  {
    ghost var before := store.sessions;
    Populate(store, slot, prompt, n, sessionId, descriptions, todoIds);
    ghost var populated := store.sessions[sessionId];
    var spawned := sup.SpawnWorkers(store, sessionId, n, agentIds, processes);
    SpawnedSession(before, sessionId, populated, prompt, n, todoIds, descriptions, agentIds);
  }

  /** Spawning the agents of a freshly populated session gives the created session. */
  lemma SpawnedSession(m: map<string, Session>, sessionId: string, populated: Session, prompt: string, n: nat,
                       todoIds: seq<string>, descriptions: seq<string>, agentIds: seq<string>)
    requires |todoIds| == |descriptions|
    requires populated == Session(sessionId, prompt, n, Decomposing, NewTodos(todoIds, descriptions), [], "", None)
    ensures m[sessionId := populated][sessionId := populated.(agents := populated.agents + WorkerManager.BootingAgents(sessionId, agentIds))]
         == m[sessionId := CreatedSession(sessionId, prompt, n, todoIds, descriptions, agentIds)]
  {
    var agents := WorkerManager.BootingAgents(sessionId, agentIds);
    assert [] + agents == agents;
    assert populated.(agents := populated.agents + agents) == CreatedSession(sessionId, prompt, n, todoIds, descriptions, agentIds);
    Overwrite(m, sessionId, populated, populated.(agents := populated.agents + agents));
  }

  /** Adding todos to a freshly created session gives the session holding just them. */
  lemma TodosAdded(created: Session, todoIds: seq<string>, descriptions: seq<string>)
    requires |todoIds| == |descriptions|
    requires created.status == Decomposing && created.todos == [] && created.agents == [] && created.whiteboard == ""
    ensures WithTodos(created, todoIds, descriptions)
         == Session(created.id, created.prompt, created.agentCount, Decomposing, NewTodos(todoIds, descriptions), [], "", created.userId)
  {
    assert [] + NewTodos(todoIds, descriptions) == NewTodos(todoIds, descriptions);
  }

  /** The first `n` values of a generator (the ids and processes the handler draws). */
  function Generated<T>(n: nat, gen: nat -> T): (r: seq<T>)
    ensures |r| == n
  {
    seq(n, gen)
  }

  /** The handler once both checks passed, with the trimmed prompt and the agent count:
      a failed decomposition marks the new session failed and answers 500; otherwise
      the session is launched and the handler answers 201. */
  method Decompose(store: Store, slot: Socket.IoSlot, sup: WorkerManager.Supervisor, prompt: string, n: nat,
                   sessionId: string, decomposition: Option<seq<string>>,
                   todoId: nat -> string, agentId: nat -> string, process: nat -> WorkerManager.Handle)
    returns (reply: Reply)
    modifies store, sup, slot.server
    ensures decomposition.None? ==>
      reply == Json(500, ErrorBody(DecomposeFailed))
      && store.sessions == old(store.sessions)[sessionId := Session(sessionId, prompt, n, Failed, [], [], "", None)]
      && sup.workerProcesses == old(sup.workerProcesses)
      && (slot.server != null ==> slot.server.emitted == old(slot.server.emitted))
    ensures decomposition.Some? ==>
      var descriptions := decomposition.value;
      var todoIds := Generated(|descriptions|, todoId);
      var agentIds := Generated(n, agentId);
      reply == Json(201, Obj(map["sessionId" := Str(sessionId)]))
      && store.sessions == old(store.sessions)[sessionId := CreatedSession(sessionId, prompt, n, todoIds, descriptions, agentIds)]
      && (slot.server != null ==>
            slot.server.emitted == old(slot.server.emitted) + TaskCreatedEvents(Room(sessionId), NewTodos(todoIds, descriptions)))
      && sessionId in sup.workerProcesses
      && sup.workerProcesses[sessionId].entries == WorkerManager.SetAll(agentIds, Generated(n, process))
    ensures sup.killed == old(sup.killed)
  {
    if decomposition.None? {
      CreateFailed(store, sessionId, prompt, n);
      return Json(500, ErrorBody(DecomposeFailed));
    }
    var descriptions := decomposition.value;
    Launch(store, slot, sup, prompt, n, sessionId, descriptions,
           Generated(|descriptions|, todoId), Generated(n, agentId), Generated(n, process));
    reply := Json(201, Obj(map["sessionId" := Str(sessionId)]));
  }

  /**
   * `POST /api/sessions`.  `sessionId` is the generated id; `decomposition` the todo
   * descriptions the model returned, or none when the call, the parse or the `todos`
   * access threw; `todoId(i)`, `agentId(i)` and `process(i)` the id of the i-th todo,
   * the id of the i-th agent and the i-th spawned worker process.
   */
  method Post(store: Store, slot: Socket.IoSlot, sup: WorkerManager.Supervisor, body: Value,
              sessionId: string, decomposition: Option<seq<string>>,
              todoId: nat -> string, agentId: nat -> string, process: nat -> WorkerManager.Handle)
    returns (reply: Reply)
    modifies store, sup, slot.server
    ensures Check(body).Rejected? ==>
      var c := Check(body);
      reply == c.reply
      && store.sessions == old(store.sessions) && sup.workerProcesses == old(sup.workerProcesses)
      && (slot.server != null ==> slot.server.emitted == old(slot.server.emitted))
    ensures Check(body).Accepted? && decomposition.None? ==>
      var c := Check(body);
      reply == Json(500, ErrorBody(DecomposeFailed))
      && store.sessions == old(store.sessions)[sessionId :=
           Session(sessionId, Strings.Trim(c.prompt), c.agentCount, Failed, [], [], "", None)]
      && sup.workerProcesses == old(sup.workerProcesses)
      && (slot.server != null ==> slot.server.emitted == old(slot.server.emitted))
    ensures Check(body).Accepted? && decomposition.Some? ==>
      var c := Check(body);
      var descriptions := decomposition.value;
      var todoIds := Generated(|descriptions|, todoId);
      var agentIds := Generated(c.agentCount, agentId);
      reply == Json(201, Obj(map["sessionId" := Str(sessionId)]))
      && store.sessions == old(store.sessions)[sessionId :=
           CreatedSession(sessionId, Strings.Trim(c.prompt), c.agentCount, todoIds, descriptions, agentIds)]
      && (slot.server != null ==>
            slot.server.emitted == old(slot.server.emitted) + TaskCreatedEvents(Room(sessionId), NewTodos(todoIds, descriptions)))
      && sessionId in sup.workerProcesses
      && sup.workerProcesses[sessionId].entries == WorkerManager.SetAll(agentIds, Generated(c.agentCount, process))
    ensures sup.killed == old(sup.killed)
  {
    var checked := Check(body);
    if checked.Rejected? {
      return checked.reply;
    }
    reply := Decompose(store, slot, sup, Strings.Trim(checked.prompt), checked.agentCount, sessionId,
                       decomposition, todoId, agentId, process);
  }
}
