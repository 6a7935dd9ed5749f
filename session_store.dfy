/**
 * The in-memory session table of the orchestrator (frontend/lib/session-store.ts):
 * sessions keyed by id, each holding its todos and agents.  The source mutates
 * the records it finds in place; here every mutator of the `Store` class
 * replaces one session by a pure transition of it, and the properties of the
 * store are proved about those transitions.
 */
module SessionStore {
  import opened Wrappers

  datatype TodoStatus = Pending | Assigned | Completed

  /** One unit of work; `assignedTo` is the agent id or null, `result` is set on completion. */
  datatype Todo = Todo(id: string, description: string, status: TodoStatus,
                       assignedTo: Option<string>, result: Option<string>)

  /** The agent statuses the code writes: `booting` at spawn, `active` on assignment,
      `idle` on completion, `terminated` on kill. */
  datatype AgentStatus = Booting | Active | Idle | Terminated

  datatype Agent = Agent(id: string, sessionId: string, status: AgentStatus,
                         currentTaskId: Option<string>, streamUrl: Option<string>,
                         tasksCompleted: Option<nat>, tasksTotal: Option<nat>)

  datatype SessionStatus = Decomposing | PendingApproval | Running | Completed | Failed

  datatype Session = Session(id: string, prompt: string, agentCount: int, status: SessionStatus,
                             todos: seq<Todo>, agents: seq<Agent>, whiteboard: string,
                             userId: Option<string>)

  /** The message thrown for an unknown session id. */
  function NotFound(sessionId: string): string {
    "Session " + sessionId + " not found"
  }

  /** `todos.find((t) => t.id === id)`, as the index of the first match. */
  function FindTodo(todos: seq<Todo>, id: string): (r: Option<nat>)
    ensures r.Some? ==> r.value < |todos| && todos[r.value].id == id
    ensures r.Some? ==> forall j :: 0 <= j < r.value ==> todos[j].id != id
    ensures r.None? ==> forall j :: 0 <= j < |todos| ==> todos[j].id != id
  {
    if |todos| == 0 then None
    else if todos[0].id == id then Some(0)
    else match FindTodo(todos[1..], id)
      case None => None
      case Some(k) => Some(k + 1)
  }

  /** `agents.find((a) => a.id === id)`, as the index of the first match; a null id matches nothing. */
  function FindAgent(agents: seq<Agent>, id: Option<string>): (r: Option<nat>)
    ensures id.None? ==> r.None?
    ensures r.Some? ==> r.value < |agents| && Some(agents[r.value].id) == id
    ensures r.Some? ==> forall j :: 0 <= j < r.value ==> Some(agents[j].id) != id
    ensures r.None? ==> forall j :: 0 <= j < |agents| ==> Some(agents[j].id) != id
  {
    if id.None? || |agents| == 0 then None
    else if agents[0].id == id.value then Some(0)
    else match FindAgent(agents[1..], id)
      case None => None
      case Some(k) => Some(k + 1)
  }

  /** `todos.find((t) => t.status === "pending")` from position `k` on, as an index. */
  function FirstPendingFrom(todos: seq<Todo>, k: nat): (r: Option<nat>)
    decreases |todos| - k
    ensures r.Some? ==> k <= r.value < |todos| && todos[r.value].status == Pending
    ensures r.Some? ==> forall j :: k <= j < r.value ==> todos[j].status != Pending
    ensures r.None? ==> forall j :: k <= j < |todos| ==> todos[j].status != Pending
  {
    if k >= |todos| then None
    else if todos[k].status == Pending then Some(k)
    else FirstPendingFrom(todos, k + 1)
  }

  predicate UniqueTodoIds(todos: seq<Todo>) {
    forall i, j :: 0 <= i < j < |todos| ==> todos[i].id != todos[j].id
  }

  predicate AllCompleted(todos: seq<Todo>) {
    forall i :: 0 <= i < |todos| ==> todos[i].status == TodoStatus.Completed
  }

  /** The todos `addTodos` creates: one pending, unassigned todo per description, in order. */
  function NewTodos(ids: seq<string>, descriptions: seq<string>): (r: seq<Todo>)
    requires |ids| == |descriptions|
    ensures |r| == |descriptions|
    ensures forall i :: 0 <= i < |r| ==> r[i] == Todo(ids[i], descriptions[i], Pending, None, None)
  {
    if |descriptions| == 0 then []
    else
      var n := |descriptions| - 1;
      NewTodos(ids[..n], descriptions[..n]) + [Todo(ids[n], descriptions[n], Pending, None, None)]
  }

  /** The session after `addTodos`. */
  /** A second update of the same key replaces the first. */
  lemma Overwrite<K, V>(m: map<K, V>, k: K, a: V, b: V)
    ensures m[k := a][k := b] == m[k := b]
  {
  }

  function WithTodos(s: Session, ids: seq<string>, descriptions: seq<string>): Session
    requires |ids| == |descriptions|
  {
    s.(todos := s.todos + NewTodos(ids, descriptions))
  }

  /** `addTodos` appends exactly one pending, unassigned todo per description, in input
      order, after the old todos; the status and everything else stay as they were. */
  lemma AddTodosShape(s: Session, ids: seq<string>, descriptions: seq<string>)
    requires |ids| == |descriptions|
    ensures var r := WithTodos(s, ids, descriptions);
      |r.todos| == |s.todos| + |descriptions|
      && r.todos[..|s.todos|] == s.todos
      && (forall i :: 0 <= i < |descriptions| ==>
            var t := r.todos[|s.todos| + i];
            t.id == ids[i] && t.description == descriptions[i] && t.status == Pending && t.assignedTo == None)
      && r.(todos := s.todos) == s
  {
    var r := WithTodos(s, ids, descriptions);
    assert r.todos[..|s.todos|] == s.todos;
  }

  /** The session after `assignTask`: the todo is assigned to the agent; that agent, when it
      exists, is made active on the todo; no other todo or agent changes. */
  function WithAssignment(s: Session, todoId: string, agentId: string): (r: Session)
    requires FindTodo(s.todos, todoId).Some?
    ensures |r.todos| == |s.todos| && |r.agents| == |s.agents|
    ensures var ti := FindTodo(s.todos, todoId).value;
      r.todos[ti] == s.todos[ti].(status := Assigned, assignedTo := Some(agentId))
      && forall j :: 0 <= j < |s.todos| && j != ti ==> r.todos[j] == s.todos[j]
    ensures match FindAgent(s.agents, Some(agentId))
      case None => r.agents == s.agents
      case Some(ai) =>
        r.agents[ai] == s.agents[ai].(currentTaskId := Some(todoId), status := Active)
        && forall j :: 0 <= j < |s.agents| && j != ai ==> r.agents[j] == s.agents[j]
    ensures r.(todos := s.todos, agents := s.agents) == s
  {
    var ti := FindTodo(s.todos, todoId).value;
    var todos := s.todos[ti := s.todos[ti].(status := Assigned, assignedTo := Some(agentId))];
    var agents := match FindAgent(s.agents, Some(agentId))
      case None => s.agents
      case Some(ai) => s.agents[ai := s.agents[ai].(currentTaskId := Some(todoId), status := Active)];
    s.(todos := todos, agents := agents)
  }

  /** The result a completion stores: a non-empty result replaces the old one. */
  function StoredResult(old_result: Option<string>, result: Option<string>): Option<string> {
    if result.Some? && result.value != "" then result else old_result
  }

  /** The session after `completeTask`: the todo is completed; the agent it names is freed
      and its counter incremented; the session is completed once every todo is. */
  function WithCompletion(s: Session, todoId: string, result: Option<string>): (r: Session)
    requires FindTodo(s.todos, todoId).Some?
    ensures |r.todos| == |s.todos| && |r.agents| == |s.agents|
    ensures var ti := FindTodo(s.todos, todoId).value;
      r.todos[ti] == s.todos[ti].(status := TodoStatus.Completed, result := StoredResult(s.todos[ti].result, result))
      && forall j :: 0 <= j < |s.todos| && j != ti ==> r.todos[j] == s.todos[j]
    ensures var ti := FindTodo(s.todos, todoId).value;
      match FindAgent(s.agents, s.todos[ti].assignedTo)
      case None => r.agents == s.agents
      case Some(ai) =>
        var a := s.agents[ai];
        r.agents[ai] == a.(currentTaskId := None, status := Idle,
                           tasksCompleted := Some(a.tasksCompleted.GetOr(0) + 1))
        && forall j :: 0 <= j < |s.agents| && j != ai ==> r.agents[j] == s.agents[j]
    ensures AllCompleted(r.todos) ==> r.status == SessionStatus.Completed
    ensures !AllCompleted(r.todos) ==> r.status == s.status
    ensures r.(todos := s.todos, agents := s.agents, status := s.status) == s
  {
    var ti := FindTodo(s.todos, todoId).value;
    var t := s.todos[ti];
    var todos := s.todos[ti := t.(status := TodoStatus.Completed, result := StoredResult(t.result, result))];
    var agents := match FindAgent(s.agents, t.assignedTo)
      case None => s.agents
      case Some(ai) =>
        s.agents[ai := s.agents[ai].(currentTaskId := None, status := Idle,
                                     tasksCompleted := Some(s.agents[ai].tasksCompleted.GetOr(0) + 1))];
    s.(todos := todos, agents := agents,
       status := if AllCompleted(todos) then SessionStatus.Completed else s.status)
  }

  /** The session after `updateAgentStatus`: the first agent with the id gets the status. */
  function WithAgentStatus(s: Session, agentId: string, status: AgentStatus): (r: Session)
    ensures |r.agents| == |s.agents|
    ensures match FindAgent(s.agents, Some(agentId))
      case None => r == s
      case Some(ai) =>
        r.agents[ai] == s.agents[ai].(status := status)
        && forall j :: 0 <= j < |s.agents| && j != ai ==> r.agents[j] == s.agents[j]
    ensures r.(agents := s.agents) == s
  {
    match FindAgent(s.agents, Some(agentId))
    case None => s
    case Some(ai) => s.(agents := s.agents[ai := s.agents[ai].(status := status)])
  }

  /** The session after `updateAgentStreamUrl`: the first agent with the id gets the URL. */
  function WithStreamUrl(s: Session, agentId: string, url: string): (r: Session)
    ensures |r.agents| == |s.agents|
    ensures match FindAgent(s.agents, Some(agentId))
      case None => r == s
      case Some(ai) =>
        r.agents[ai] == s.agents[ai].(streamUrl := Some(url))
        && forall j :: 0 <= j < |s.agents| && j != ai ==> r.agents[j] == s.agents[j]
    ensures r.(agents := s.agents) == s
  {
    match FindAgent(s.agents, Some(agentId))
    case None => s
    case Some(ai) => s.(agents := s.agents[ai := s.agents[ai].(streamUrl := Some(url))])
  }

  /** `updateAgentStatus` over the whole table: a silent no-op for an unknown session. */
  function SetAgentStatus(sessions: map<string, Session>, sessionId: string, agentId: string,
                          status: AgentStatus): (r: map<string, Session>)
    ensures r.Keys == sessions.Keys
    ensures forall k :: k in sessions && k != sessionId ==> r[k] == sessions[k]
    ensures sessionId in sessions ==> r[sessionId] == WithAgentStatus(sessions[sessionId], agentId, status)
  {
    if sessionId in sessions then sessions[sessionId := WithAgentStatus(sessions[sessionId], agentId, status)]
    else sessions
  }

  // ---------------------------------------------------------------------------
  // Invariants of the transitions

  /** A pending todo has no assignee and an assigned todo has one.  (A completed todo
      may have none: `completeTask` does not look at the prior status.) */
  predicate TodoConsistent(t: Todo) {
    (t.status == Pending ==> t.assignedTo.None?) && (t.status == Assigned ==> t.assignedTo.Some?)
  }

  /** An agent holds a current task exactly when it is active. */
  predicate AgentConsistent(a: Agent) {
    a.currentTaskId.Some? <==> a.status == Active
  }

  predicate Consistent(s: Session) {
    (forall i :: 0 <= i < |s.todos| ==> TodoConsistent(s.todos[i]))
    && (forall i :: 0 <= i < |s.agents| ==> AgentConsistent(s.agents[i]))
  }

  /** A freshly created session is consistent. */
  lemma CreatedConsistent(id: string, prompt: string, agentCount: int, userId: Option<string>)
    ensures Consistent(Session(id, prompt, agentCount, SessionStatus.Decomposing, [], [], "", userId))
  {
  }

  /** `addTodos`, `assignTask` and `completeTask` keep a session consistent. */
  lemma AddTodosKeepsConsistent(s: Session, ids: seq<string>, descriptions: seq<string>)
    requires |ids| == |descriptions| && Consistent(s)
    ensures Consistent(WithTodos(s, ids, descriptions))
  {
    var r := WithTodos(s, ids, descriptions);
    AddTodosShape(s, ids, descriptions);
    forall i | 0 <= i < |r.todos| ensures TodoConsistent(r.todos[i]) {
      if i < |s.todos| {
        assert r.todos[i] == r.todos[..|s.todos|][i];
      } else {
        assert r.todos[|s.todos| + (i - |s.todos|)] == r.todos[i];
      }
    }
  }

  lemma AssignKeepsConsistent(s: Session, todoId: string, agentId: string)
    requires FindTodo(s.todos, todoId).Some? && Consistent(s)
    ensures Consistent(WithAssignment(s, todoId, agentId))
  {
  }

  lemma CompleteKeepsConsistent(s: Session, todoId: string, result: Option<string>)
    requires FindTodo(s.todos, todoId).Some? && Consistent(s)
    ensures Consistent(WithCompletion(s, todoId, result))
  {
  }

  /** An agent added in the booting state with no task keeps the session consistent. */
  lemma AddBootingAgentKeepsConsistent(s: Session, a: Agent)
    requires Consistent(s) && a.status == Booting && a.currentTaskId.None?
    ensures Consistent(s.(agents := s.agents + [a]))
  {
  }

  /** `updateAgentStatus` can break the agent invariant: terminating a working agent
      (what `killAllWorkers` does) leaves its current task set. */
  lemma TerminatingWorkingAgentLeavesTask(s: Session, agentId: string)
    requires FindAgent(s.agents, Some(agentId)).Some?
    requires s.agents[FindAgent(s.agents, Some(agentId)).value].currentTaskId.Some?
    ensures !Consistent(WithAgentStatus(s, agentId, Terminated))
  {
    var ai := FindAgent(s.agents, Some(agentId)).value;
    assert !AgentConsistent(WithAgentStatus(s, agentId, Terminated).agents[ai]);
  }

  /** Completing a todo that was never assigned marks it completed with no assignee and
      touches no agent. */
  lemma CompletingUnassignedTodo(s: Session, todoId: string)
    requires FindTodo(s.todos, todoId).Some?
    requires s.todos[FindTodo(s.todos, todoId).value].assignedTo.None?
    ensures var r := WithCompletion(s, todoId, None);
      var ti := FindTodo(s.todos, todoId).value;
      r.todos[ti].status == TodoStatus.Completed && r.todos[ti].assignedTo.None? && r.agents == s.agents
  {
  }

  /** Assignment may name an agent that is not in the session; the todo then refers to
      no agent of the session. */
  lemma AssignToUnknownAgent(s: Session, todoId: string, agentId: string)
    requires FindTodo(s.todos, todoId).Some?
    requires forall j :: 0 <= j < |s.agents| ==> s.agents[j].id != agentId
    ensures var r := WithAssignment(s, todoId, agentId);
      var ti := FindTodo(s.todos, todoId).value;
      r.todos[ti].assignedTo == Some(agentId) && r.agents == s.agents
      && forall j :: 0 <= j < |r.agents| ==> r.agents[j].id != agentId
  {
  }

  // ---------------------------------------------------------------------------
  // Completion of the session

  /** Completing the last todo that was not yet completed completes the session. */
  lemma {:induction false} CompletingLastTodoCompletesSession(s: Session, todoId: string, result: Option<string>)
    requires FindTodo(s.todos, todoId).Some?
    requires forall j :: 0 <= j < |s.todos| && j != FindTodo(s.todos, todoId).value ==>
      s.todos[j].status == TodoStatus.Completed
    ensures WithCompletion(s, todoId, result).status == SessionStatus.Completed
  {
    var r := WithCompletion(s, todoId, result);
    var ti := FindTodo(s.todos, todoId).value;
    forall j | 0 <= j < |r.todos| ensures r.todos[j].status == TodoStatus.Completed {
      if j != ti {
        assert r.todos[j] == s.todos[j];
      }
    }
  }

  /** While some other todo is open, completing a todo leaves the session status alone. */
  lemma {:induction false} CompletingWithOpenTodoKeepsStatus(s: Session, todoId: string, result: Option<string>, k: nat)
    requires FindTodo(s.todos, todoId).Some?
    requires k < |s.todos| && k != FindTodo(s.todos, todoId).value && s.todos[k].status != TodoStatus.Completed
    ensures WithCompletion(s, todoId, result).status == s.status
  {
    var r := WithCompletion(s, todoId, result);
    assert r.todos[k] == s.todos[k];
  }

  // ---------------------------------------------------------------------------
  // First-in first-out assignment

  /** Assigning the first pending todo makes the next pending todo after it the first. */
  lemma {:induction false} AssignFirstPendingAdvances(s: Session, agentId: string)
    requires UniqueTodoIds(s.todos)
    requires FirstPendingFrom(s.todos, 0).Some?
    ensures var i := FirstPendingFrom(s.todos, 0).value;
      FindTodo(s.todos, s.todos[i].id) == Some(i)
      && FirstPendingFrom(WithAssignment(s, s.todos[i].id, agentId).todos, 0)
         == FirstPendingFrom(s.todos, i + 1)
  {
    var i := FirstPendingFrom(s.todos, 0).value;
    var found := FindTodo(s.todos, s.todos[i].id);
    assert found == Some(i);
    var r := WithAssignment(s, s.todos[i].id, agentId).todos;
    PendingScanAgrees(r, s.todos, i + 1);
    SkipNonPending(r, 0, i + 1);
  }

  /** Two todo lists that agree on pending-ness from `k` on give the same scan from `k`. */
  lemma {:induction false} PendingScanAgrees(a: seq<Todo>, b: seq<Todo>, k: nat)
    requires |a| == |b|
    requires forall j :: k <= j < |a| ==> a[j] == b[j]
    ensures FirstPendingFrom(a, k) == FirstPendingFrom(b, k)
    decreases |a| - k
  {
    if k < |a| {
      PendingScanAgrees(a, b, k + 1);
    }
  }

  /** A scan skips a block with no pending todo. */
  lemma {:induction false} SkipNonPending(a: seq<Todo>, k: nat, m: nat)
    requires k <= m
    requires forall j :: k <= j < m && j < |a| ==> a[j].status != Pending
    ensures FirstPendingFrom(a, k) == FirstPendingFrom(a, m)
    decreases m - k
  {
    if k < m && k < |a| {
      SkipNonPending(a, k + 1, m);
    }
  }

  // ---------------------------------------------------------------------------
  // The store

  /** The process-wide session table. */
  class Store {
    var sessions: map<string, Session>

    constructor()
      ensures sessions == map[]
    {
      sessions := map[];
    }

    /** Stores a new session under `id`, silently replacing any session with that id. */
    method CreateSession(id: string, prompt: string, agentCount: int, userId: Option<string>)
      returns (s: Session)
      modifies this
      ensures s.id == id && s.prompt == prompt && s.agentCount == agentCount && s.userId == userId
      ensures s.status == SessionStatus.Decomposing && s.todos == [] && s.agents == [] && s.whiteboard == ""
      ensures sessions == old(sessions)[id := s]
    {
      s := Session(id, prompt, agentCount, SessionStatus.Decomposing, [], [], "", userId);
      sessions := sessions[id := s];
    }

    function GetSession(id: string): (r: Option<Session>)
      reads this
      ensures r.Some? <==> id in sessions
      ensures r.Some? ==> r.value == sessions[id]
    {
      if id in sessions then Some(sessions[id]) else None
    }

    /** Appends one pending todo per description; `ids` are the freshly generated todo ids. */
    method AddTodos(sessionId: string, descriptions: seq<string>, ids: seq<string>)
      returns (r: Result<seq<Todo>>)
      requires |ids| == |descriptions|
      modifies this
      ensures sessionId !in old(sessions) ==> r == Failure(NotFound(sessionId)) && sessions == old(sessions)
      ensures sessionId in old(sessions) ==>
        r == Success(NewTodos(ids, descriptions))
        && sessions == old(sessions)[sessionId := WithTodos(old(sessions)[sessionId], ids, descriptions)]
    {
      if sessionId !in sessions {
        return Failure(NotFound(sessionId));
      }
      var newTodos := NewTodos(ids, descriptions);
      var s := sessions[sessionId];
      sessions := sessions[sessionId := s.(todos := s.todos + newTodos)];
      r := Success(newTodos);
    }

    /** Replaces the todo list wholesale. */
    method UpdateTodos(sessionId: string, todos: seq<Todo>) returns (r: Outcome)
      modifies this
      ensures sessionId !in old(sessions) ==> r == Fail(NotFound(sessionId)) && sessions == old(sessions)
      ensures sessionId in old(sessions) ==>
        r == Pass && sessions == old(sessions)[sessionId := old(sessions)[sessionId].(todos := todos)]
    {
      if sessionId !in sessions {
        return Fail(NotFound(sessionId));
      }
      sessions := sessions[sessionId := sessions[sessionId].(todos := todos)];
      r := Pass;
    }

    /** Moves a session from `pending_approval` to `running`; any other status is an error. */
    method ApproveSession(sessionId: string) returns (r: Outcome)
      modifies this
      ensures sessionId !in old(sessions) ==> r == Fail(NotFound(sessionId)) && sessions == old(sessions)
      ensures sessionId in old(sessions) && old(sessions)[sessionId].status != PendingApproval ==>
        r == Fail("Session " + sessionId + " is not pending approval") && sessions == old(sessions)
      ensures sessionId in old(sessions) && old(sessions)[sessionId].status == PendingApproval ==>
        r == Pass && sessions == old(sessions)[sessionId := old(sessions)[sessionId].(status := Running)]
    {
      if sessionId !in sessions {
        return Fail(NotFound(sessionId));
      }
      var s := sessions[sessionId];
      if s.status != PendingApproval {
        return Fail("Session " + sessionId + " is not pending approval");
      }
      sessions := sessions[sessionId := s.(status := Running)];
      r := Pass;
    }

    /** Assigns a todo to an agent; an unknown session or todo is an error, an unknown agent is not. */
    method AssignTask(sessionId: string, todoId: string, agentId: string) returns (r: Result<Todo>)
      modifies this
      ensures sessionId !in old(sessions) ==> r == Failure(NotFound(sessionId)) && sessions == old(sessions)
      ensures sessionId in old(sessions) && FindTodo(old(sessions)[sessionId].todos, todoId).None? ==>
        r == Failure("Todo " + todoId + " not found") && sessions == old(sessions)
      ensures sessionId in old(sessions) && FindTodo(old(sessions)[sessionId].todos, todoId).Some? ==>
        var s' := WithAssignment(old(sessions)[sessionId], todoId, agentId);
        sessions == old(sessions)[sessionId := s']
        && r == Success(s'.todos[FindTodo(old(sessions)[sessionId].todos, todoId).value])
    {
      if sessionId !in sessions {
        return Failure(NotFound(sessionId));
      }
      var s := sessions[sessionId];
      var found := FindTodo(s.todos, todoId);
      if found.None? {
        return Failure("Todo " + todoId + " not found");
      }
      var ti := found.value;
      var todo := s.todos[ti].(status := Assigned, assignedTo := Some(agentId));
      var todos := s.todos[ti := todo];
      var agents := s.agents;
      var agentAt := FindAgent(agents, Some(agentId));
      if agentAt.Some? {
        var ai := agentAt.value;
        agents := agents[ai := agents[ai].(currentTaskId := Some(todoId), status := Active)];
      }
      sessions := sessions[sessionId := s.(todos := todos, agents := agents)];
      r := Success(todo);
    }

    /** Completes a todo, frees the agent it names and completes the session when every todo is done. */
    method CompleteTask(sessionId: string, todoId: string, result: Option<string>) returns (r: Result<Todo>)
      modifies this
      ensures sessionId !in old(sessions) ==> r == Failure(NotFound(sessionId)) && sessions == old(sessions)
      ensures sessionId in old(sessions) && FindTodo(old(sessions)[sessionId].todos, todoId).None? ==>
        r == Failure("Todo " + todoId + " not found") && sessions == old(sessions)
      ensures sessionId in old(sessions) && FindTodo(old(sessions)[sessionId].todos, todoId).Some? ==>
        var s' := WithCompletion(old(sessions)[sessionId], todoId, result);
        sessions == old(sessions)[sessionId := s']
        && r == Success(s'.todos[FindTodo(old(sessions)[sessionId].todos, todoId).value])
    {
      if sessionId !in sessions {
        return Failure(NotFound(sessionId));
      }
      var s := sessions[sessionId];
      var found := FindTodo(s.todos, todoId);
      if found.None? {
        return Failure("Todo " + todoId + " not found");
      }
      var ti := found.value;
      var todo := s.todos[ti].(status := TodoStatus.Completed, result := StoredResult(s.todos[ti].result, result));
      var todos := s.todos[ti := todo];
      var agents := s.agents;
      var agentAt := FindAgent(agents, todo.assignedTo);
      if agentAt.Some? {
        var ai := agentAt.value;
        var a := agents[ai];
        agents := agents[ai := a.(currentTaskId := None, status := Idle,
                                  tasksCompleted := Some(a.tasksCompleted.GetOr(0) + 1))];
      }
      var status := if AllCompleted(todos) then SessionStatus.Completed else s.status;
      sessions := sessions[sessionId := s.(todos := todos, agents := agents, status := status)];
      r := Success(todo);
    }

    /** The first pending todo of the session in list order, or none. */
    function GetNextPendingTask(sessionId: string): (r: Option<Todo>)
      reads this
      ensures sessionId !in sessions ==> r.None?
      ensures sessionId in sessions && r.None? ==>
        forall j :: 0 <= j < |sessions[sessionId].todos| ==> sessions[sessionId].todos[j].status != Pending
      ensures r.Some? ==> sessionId in sessions
      ensures r.Some? ==>
        exists i :: 0 <= i < |sessions[sessionId].todos| && sessions[sessionId].todos[i] == r.value
          && r.value.status == Pending
          && (forall j :: 0 <= j < i ==> sessions[sessionId].todos[j].status != Pending)
    {
      if sessionId !in sessions then None
      else match FirstPendingFrom(sessions[sessionId].todos, 0)
        case None => None
        case Some(i) => Some(sessions[sessionId].todos[i])
    }

    /** Appends an agent; an unknown session is an error. */
    method AddAgent(sessionId: string, agent: Agent) returns (r: Outcome)
      modifies this
      ensures sessionId !in old(sessions) ==> r == Fail(NotFound(sessionId)) && sessions == old(sessions)
      ensures sessionId in old(sessions) ==>
        r == Pass
        && sessions == old(sessions)[sessionId := old(sessions)[sessionId].(agents := old(sessions)[sessionId].agents + [agent])]
    {
      if sessionId !in sessions {
        return Fail(NotFound(sessionId));
      }
      var s := sessions[sessionId];
      sessions := sessions[sessionId := s.(agents := s.agents + [agent])];
      r := Pass;
    }

    /** Sets an agent's status; an unknown session or agent is silently ignored. */
    method UpdateAgentStatus(sessionId: string, agentId: string, status: AgentStatus)
      modifies this
      ensures sessions == SetAgentStatus(old(sessions), sessionId, agentId, status)
    {
      if sessionId !in sessions {
        return;
      }
      var s := sessions[sessionId];
      var agentAt := FindAgent(s.agents, Some(agentId));
      if agentAt.Some? {
        var ai := agentAt.value;
        sessions := sessions[sessionId := s.(agents := s.agents[ai := s.agents[ai].(status := status)])];
      }
    }

    function GetWhiteboard(sessionId: string): (r: Result<string>)
      reads this
      ensures sessionId !in sessions ==> r == Failure(NotFound(sessionId))
      ensures sessionId in sessions ==> r == Success(sessions[sessionId].whiteboard)
    {
      if sessionId !in sessions then Failure(NotFound(sessionId))
      else Success(sessions[sessionId].whiteboard)
    }

    /** Replaces (does not append to) the whiteboard text. */
    method UpdateWhiteboard(sessionId: string, content: string) returns (r: Outcome)
      modifies this
      ensures sessionId !in old(sessions) ==> r == Fail(NotFound(sessionId)) && sessions == old(sessions)
      ensures sessionId in old(sessions) ==>
        r == Pass && sessions == old(sessions)[sessionId := old(sessions)[sessionId].(whiteboard := content)]
    {
      if sessionId !in sessions {
        return Fail(NotFound(sessionId));
      }
      sessions := sessions[sessionId := sessions[sessionId].(whiteboard := content)];
      r := Pass;
    }

    /** Records an agent's stream URL; an unknown session or agent is silently ignored. */
    method UpdateAgentStreamUrl(sessionId: string, agentId: string, streamUrl: string)
      modifies this
      ensures sessionId !in old(sessions) ==> sessions == old(sessions)
      ensures sessionId in old(sessions) ==>
        sessions == old(sessions)[sessionId := WithStreamUrl(old(sessions)[sessionId], agentId, streamUrl)]
    {
      if sessionId !in sessions {
        return;
      }
      var s := sessions[sessionId];
      var agentAt := FindAgent(s.agents, Some(agentId));
      if agentAt.Some? {
        var ai := agentAt.value;
        sessions := sessions[sessionId := s.(agents := s.agents[ai := s.agents[ai].(streamUrl := Some(streamUrl))])];
      }
    }
  }

  /** A fresh session read back from the table has the initial shape, whatever was stored
      under the id before; the whiteboard reads as empty. */
  method CreateThenRead(store: Store, id: string, prompt: string, agentCount: int)
    modifies store
    ensures store.GetSession(id).Some?
    ensures store.GetSession(id).value.status == SessionStatus.Decomposing
    ensures store.GetSession(id).value.todos == [] && store.GetSession(id).value.agents == []
    ensures store.GetWhiteboard(id) == Success("")
    ensures store.GetNextPendingTask(id).None?
  {
    var _ := store.CreateSession(id, prompt, agentCount, None);
  }
}
