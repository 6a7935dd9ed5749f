# opticon in Dafny

This project models the bookkeeping core of opticon, a "one prompt, many
desktop agents" runner. A user's prompt is decomposed into todos by a
language model, optionally edited on a task board, and worked off by worker
processes, one per agent, each driving a cloud desktop. The project covers:

- **Session store** (`session_store.dfy`): the in-memory table of sessions.
  Each session holds todos and agents, and has create, add, assign,
  complete and next-pending operations. It is a `Store` class over
  `map<string, Session>`. Every mutator is specified by a pure transition
  function on `Session`, and the invariants are proved about those
  functions.
- **Session creation** (`sessions_route.dfy`): the `POST /api/sessions`
  handler, which validates, creates the session, takes the decomposition
  (an abstract result), and then either marks the session failed or adds
  todos, emits `task:created` and spawns workers.
- **Worker supervisor** (`worker_manager.dfy`): the per-session process
  tables, with spawn, exit and kill-all operations. Processes are opaque
  handles and a kill is a recorded action.
- **Socket slot** (`socket.dfy`): the configured-once global socket.io
  handle, plus the hub seen as an append-only event log.
- **Task board** (`kanban.dfy`): the board reducers of the pre-approval
  page. These are round-robin layout, drag across and within columns,
  edit, add and remove of tasks and agent columns, approval and the
  valid-task counter.
- **Thinking feed** (`thinking_sidebar.dfy`): agent numbers and colours,
  truncation, tool chips, the rolling window, thread grouping and thread
  toggling.
- **Replay** (`replay.dfy`, `r2.dfy`, `replay_scrubber.dfy`):
  - the worker's frame buffer and upload, with its manifest;
  - the backend's key layout and public URLs;
  - the player's cursor, playback and preload window.
- **Decomposer replies** (`orchestrator.dfy`, `k2_think.dfy`): fence
  extraction and stripping, the refine prompt, error wrapping and the
  `todos` shape check.
- **Desktop tools** (`e2b_tools.dfy`): the tools on a sandbox seen as a
  trace of actions, the dispatch table, the schema list and
  `execute_tool`.
- **Access gate and registration** (`middleware.dfy`, `register.dfy`).

Shared helpers:

- `wrappers.dfy`: `Option`, `Result` and `Outcome`.
- `strings.dfy`: JavaScript whitespace and trimming, split and join,
  decimal rendering and parsing, `padStart` and `zfill`.
- `js.dfy`: JSON values, truthiness and property access.

Clocks, random ids, hashing, the network, the model calls, `JSON.parse`
and the operating system are parameters of the operations that use them.

When the code and its unit tests disagree, the model follows the code:

- `addTodos` leaves the session status alone. The store test expects
  `running`.
- `assignTask` sets the agent to `active`. The test expects `working`.
- `completeTask` completes the session once every todo is completed, as
  the code does.
- The session page and the socket client emit `join-session`, while
  `frontend/server.ts` listens for `session:join`. Neither is part of
  this model.
- The worker tests call a `take_screenshot` tool that `TOOL_FUNCTIONS`
  does not have; `execute_tool` answers "Unknown tool" for it, as
  `E2bTools.ExecuteTool` states.
- `frontend/lib/types.ts` is stale. The todo and agent shapes follow
  `session-store.ts` and `frontend/lib/db/schema.ts`.

## Model

| member | source | states |
|---|---|---|
| SessionStore.FindTodo | frontend/lib/session-store.ts:72 | the index of the first todo with the id, or none when no todo has it |
| SessionStore.FindAgent | frontend/lib/session-store.ts:78 | the index of the first agent with the id; a null id matches no agent |
| SessionStore.FirstPendingFrom | frontend/lib/session-store.ts:118 | the first pending todo at or after a position, or none when every later todo is not pending |
| SessionStore.NewTodos | frontend/lib/session-store.ts:38-43 | one todo per description, in order, each pending with no assignee and no result |
| SessionStore.AddTodosShape | frontend/lib/session-store.ts:34-47 | after `addTodos` the earlier todos are a prefix, the new ones follow in order, and the status, agents and whiteboard are unchanged |
| SessionStore.WithTodos | frontend/lib/session-store.ts:34-47 | definition: the new todos appended after the old ones (its shape is stated by `AddTodosShape`) |
| SessionStore.WithAssignment | frontend/lib/session-store.ts:72-84 | the first todo with the id is assigned to the agent; the first agent with that id gets the task and turns active; nothing else changes |
| SessionStore.WithCompletion | frontend/lib/session-store.ts:95-111 | the todo is completed and keeps its old result unless a non-empty one is given; the agent it names is freed, idle, and counts one more task; the session becomes completed once every todo is completed, and otherwise keeps its status |
| SessionStore.WithAgentStatus | frontend/lib/session-store.ts:135-136 | only the first agent with the id gets the status |
| SessionStore.WithStreamUrl | frontend/lib/session-store.ts:158-159 | only the first agent with the id gets the stream URL |
| SessionStore.SetAgentStatus | frontend/lib/session-store.ts:127-137 | the status update changes only the named session; an unknown session is a no-op |
| SessionStore.CreatedConsistent | frontend/lib/session-store.ts:15-25 | a fresh session satisfies the todo and agent invariants |
| SessionStore.AddTodosKeepsConsistent | frontend/lib/session-store.ts:38-45 | adding todos preserves the invariants |
| SessionStore.AssignKeepsConsistent | frontend/lib/session-store.ts:75-82 | assignment preserves the invariants |
| SessionStore.CompleteKeepsConsistent | frontend/lib/session-store.ts:98-106 | completion preserves the invariants |
| SessionStore.AddBootingAgentKeepsConsistent | frontend/lib/worker-manager.ts:26-34 | appending a booting agent without a task preserves the invariants |
| SessionStore.TerminatingWorkingAgentLeavesTask | frontend/lib/session-store.ts:127-137 | marking an active agent terminated breaks the agent invariant, since the agent keeps its current task |
| SessionStore.CompletingUnassignedTodo | frontend/lib/session-store.ts:95-99 | completing a never-assigned todo leaves it completed with no assignee, so "completed implies assigned" is not an invariant |
| SessionStore.AssignToUnknownAgent | frontend/lib/session-store.ts:78-82 | an unknown agent is tolerated: the todo names it and no agent changes |
| SessionStore.CompletingLastTodoCompletesSession | frontend/lib/session-store.ts:108-110 | completing the only open todo completes the session |
| SessionStore.CompletingWithOpenTodoKeepsStatus | frontend/lib/session-store.ts:108-110 | while another todo is open the session status is unchanged |
| SessionStore.AssignFirstPendingAdvances | frontend/lib/session-store.ts:115-119 | after the first pending todo is assigned, the next pending todo is the first pending one after it (FIFO) |
| SessionStore.PendingScanAgrees | frontend/lib/session-store.ts:118 | the scan from a position depends only on the todos from that position on |
| SessionStore.SkipNonPending | frontend/lib/session-store.ts:118 | the scan skips a block with no pending todo |
| SessionStore.Store.constructor | frontend/lib/session-store.ts:7 | the table starts empty |
| SessionStore.Store.CreateSession | frontend/lib/session-store.ts:9-28 | stores a decomposing session with no todos, no agents and an empty whiteboard, and returns it; an existing id is overwritten |
| SessionStore.Store.GetSession | frontend/lib/session-store.ts:30-32 | the stored session, or none exactly when the id is unknown |
| SessionStore.Store.AddTodos | frontend/lib/session-store.ts:34-47 | an unknown session fails and changes nothing; otherwise the session becomes `WithTodos` and the new todos are returned |
| SessionStore.Store.UpdateTodos | frontend/lib/session-store.ts:49-53 | replaces the todo list wholesale; an unknown session fails and changes nothing |
| SessionStore.Store.ApproveSession | frontend/lib/session-store.ts:55-62 | only a pending-approval session becomes running; any other status fails and leaves the table unchanged |
| SessionStore.Store.AssignTask | frontend/lib/session-store.ts:64-85 | an unknown session or todo fails and changes nothing; otherwise the session becomes `WithAssignment` and the updated todo is returned |
| SessionStore.Store.CompleteTask | frontend/lib/session-store.ts:87-113 | an unknown session or todo fails and changes nothing; otherwise the session becomes `WithCompletion` and the completed todo is returned |
| SessionStore.Store.GetNextPendingTask | frontend/lib/session-store.ts:115-119 | the first pending todo in list order; none for an unknown session or when nothing is pending |
| SessionStore.Store.AddAgent | frontend/lib/session-store.ts:121-125 | appends the agent; an unknown session fails and changes nothing |
| SessionStore.Store.UpdateAgentStatus | frontend/lib/session-store.ts:127-137 | the table becomes `SetAgentStatus` of the old table; unknown session or agent is a silent no-op |
| SessionStore.Store.GetWhiteboard | frontend/lib/session-store.ts:139-143 | the whiteboard text; an unknown session fails |
| SessionStore.Store.UpdateWhiteboard | frontend/lib/session-store.ts:145-149 | replaces the whiteboard text; an unknown session fails and changes nothing |
| SessionStore.Store.UpdateAgentStreamUrl | frontend/lib/session-store.ts:151-160 | the first agent with the id gets the URL; unknown session or agent is a silent no-op |
| SessionStore.CreateThenRead | frontend/lib/__tests__/session-store.test.ts:24-43 | a created session reads back decomposing, with no todos or agents, an empty whiteboard and no pending task |
| SessionsRoute.PromptValidIff | frontend/app/api/sessions/route.ts:23 | the prompt check passes exactly for a string that is not all whitespace |
| SessionsRoute.LoopIterations | frontend/app/api/sessions/route.ts:92 | the spawn loop runs the least whole number of times not below the count, and never for a count of 0 or less |
| SessionsRoute.FractionalAgentCountAccepted | frontend/app/api/sessions/route.ts:27-37 | the check as written accepts 2.5, for which the loop spawns 3 workers |
| SessionsRoute.AgentCountValidIff | frontend/app/api/sessions/route.ts:27-37 | the corrected check accepts exactly 1, 2, 3 and 4, and the loop then spawns exactly that many workers |
| SessionsRoute.RequestedAgents | frontend/app/api/sessions/route.ts:27-37 | an accepted count is a whole number from 1 to 4 |
| SessionsRoute.TaskCreatedEvents | frontend/app/api/sessions/route.ts:83-85 | one `task:created` event per todo, to the session's room, in todo order |
| SessionsRoute.CreatedSession | frontend/app/api/sessions/route.ts:39-92 | a successful request leaves the trimmed prompt, the decomposed todos in order and one booting agent per worker |
| SessionsRoute.Check | frontend/app/api/sessions/route.ts:17-37 | a null body throws; a bad prompt gets 400 before the count is checked; a bad count gets 400; acceptance exactly when both pass, giving the prompt and a count from 1 to 4 |
| SessionsRoute.Announce | frontend/app/api/sessions/route.ts:81-89 | with a socket server, one `task:created` event per todo is appended, in todo order; without one the handler goes on |
| SessionsRoute.CreateFailed | frontend/app/api/sessions/route.ts:39-75 | the session is created and then marked failed, with no todos or agents |
| SessionsRoute.Populate | frontend/app/api/sessions/route.ts:39-89 | the session holds the new todos and the events are announced |
| SessionsRoute.Launch | frontend/app/api/sessions/route.ts:78-92 | the created session, the announced events, and a process table with one entry per spawned agent; nothing is killed |
| SessionsRoute.Decompose | frontend/app/api/sessions/route.ts:42-94 | a failed decomposition answers 500 and leaves the new session failed, with no workers and no events; otherwise it answers 201 with the session id, after the session is created, announced and spawned |
| SessionsRoute.Post | frontend/app/api/sessions/route.ts:16-95 | a rejected body changes nothing; a failed decomposition gives 500 and a failed session with no todos and no workers; a success gives 201 with the id, the created session, the events and the spawned table |
| WorkerManager.MapSet | frontend/lib/worker-manager.ts:50 | `Map.set`: an existing key keeps its place and takes the handle; a new key is appended; keys stay distinct |
| WorkerManager.MapDelete | frontend/lib/worker-manager.ts:67 | `Map.delete`: exactly the entries with other keys remain, in order |
| WorkerManager.Zip | frontend/lib/worker-manager.ts:24-50 | the i-th entry pairs the i-th agent id with the i-th handle |
| WorkerManager.SetAllDistinct | frontend/lib/worker-manager.ts:24-50 | with fresh distinct ids, the spawn loop's table holds exactly one entry per agent, in spawn order |
| WorkerManager.BootingAgents | frontend/lib/worker-manager.ts:26-33 | each new agent is booting, in the session, with no task and zero counters |
| WorkerManager.TerminateAll | frontend/lib/worker-manager.ts:76-80 | marking a table's agents terminated keeps the sessions and the agent count |
| WorkerManager.TerminateAllFrame | frontend/lib/worker-manager.ts:76-80 | a kill-all changes only that session, and there only agent statuses |
| WorkerManager.TerminateAllIds | frontend/lib/worker-manager.ts:76-80 | a kill-all keeps the agents and their ids in place |
| WorkerManager.TerminateAllTerminates | frontend/lib/worker-manager.ts:76-80 | an agent whose id is in the table, and which is the first agent with that id, ends terminated |
| WorkerManager.SetAgentStatusTwice | frontend/lib/session-store.ts:127-137 | setting the same status twice equals setting it once |
| WorkerManager.ProcessTable.constructor | frontend/lib/worker-manager.ts:21 | a new table is empty |
| WorkerManager.ProcessTable.Set | frontend/lib/worker-manager.ts:50 | the table becomes `MapSet` of the old one |
| WorkerManager.ProcessTable.Delete | frontend/lib/worker-manager.ts:67 | the table becomes `MapDelete` of the old one |
| WorkerManager.WorkerExited | frontend/lib/worker-manager.ts:65-68 | an exit removes exactly that agent's entry from the table it was spawned into, and only that table changes |
| WorkerManager.SpawnInto | frontend/lib/worker-manager.ts:24-69 | the loop appends one booting agent per id to the session and sets one entry per agent in the table |
| WorkerManager.Supervisor.constructor | frontend/lib/worker-manager.ts:12 | no tables and nothing killed |
| WorkerManager.Supervisor.SpawnWorkers | frontend/lib/worker-manager.ts:17-70 | an unknown session fails before any change; otherwise exactly the booting agents are appended, and a fresh table replaces any previous one without killing it |
| WorkerManager.Supervisor.KillAllWorkers | frontend/lib/worker-manager.ts:72-83 | no table means no-op; otherwise every handle still in the table is killed in order, its agent is marked terminated, and the table is deleted |
| WorkerManager.HandlesOf | frontend/lib/worker-manager.ts:76-78 | the handles of a table, in order |
| WorkerManager.KillAllTwice | frontend/lib/worker-manager.ts:72-83 | a second kill-all finds no table and changes nothing, so two calls equal one |
| Socket.Hub.constructor | frontend/lib/socket.ts:4 | nothing emitted yet |
| Socket.Hub.Emit | frontend/app/api/sessions/route.ts:84 | appends exactly one event |
| Socket.IoSlot.constructor | frontend/lib/socket.ts:6-8 | the slot starts empty |
| Socket.IoSlot.SetIO | frontend/lib/socket.ts:10-12 | the slot holds the given server, overwriting any earlier one |
| Socket.IoSlot.GetIO | frontend/lib/socket.ts:14-17 | fails with "Socket.io not initialized" exactly when the slot is empty, otherwise returns the stored server |
| Socket.SlotLifecycle | frontend/lib/__tests__/socket.test.ts:5-18 | a read before any set fails; after a set the read returns that server; the last set wins |
| Kanban.IdList | frontend/components/kanban/kanban-board.tsx:122 | the ids of a list of tasks, in order |
| Kanban.IdsAppend | frontend/components/kanban/kanban-board.tsx:139 | the ids of a concatenation are the union of the ids |
| Kanban.FlattenUpdate | frontend/components/kanban/kanban-board.tsx:139 | replacing one listed column swaps its ids and keeps every other id |
| Kanban.FlattenMember | frontend/components/kanban/kanban-board.tsx:248-250 | a task in a flattening comes from one of the listed columns |
| Kanban.FindIndex | frontend/components/kanban/kanban-board.tsx:122-132 | the index of the first task with the id, or -1 when none has it |
| Kanban.Insert | frontend/components/kanban/kanban-board.tsx:134 | `splice(i, 0, t)`: the task lands at position i and the list grows by one |
| Kanban.RemoveIds | frontend/components/kanban/kanban-board.tsx:125 | removal takes away exactly that task's id |
| Kanban.InsertIds | frontend/components/kanban/kanban-board.tsx:134 | insertion adds exactly that task's id |
| Kanban.InsertKeepsOrder | frontend/components/kanban/kanban-board.tsx:134 | the tasks before position i stay in front, and the others follow the inserted task in order |
| Kanban.ArrayMove | frontend/components/kanban/kanban-board.tsx:171 | the moved task lands at the target index and the length is kept |
| Kanban.ArrayMovePermutes | frontend/components/kanban/kanban-board.tsx:171 | a move is a permutation of the tasks |
| Kanban.ArrayMoveInverse | frontend/components/kanban/kanban-board.tsx:171 | moving back undoes a move |
| Kanban.Distributed | frontend/components/kanban/kanban-board.tsx:33-52 | the unassigned column and every agent column are on the board |
| Kanban.DistributeTasksRoundRobin | frontend/components/kanban/kanban-board.tsx:33-52 | the loop builds exactly the round-robin board |
| Kanban.DistributedConsistent | frontend/components/kanban/kanban-board.tsx:42-49 | every placed task's assignee is its column, or none in "unassigned" |
| Kanban.DistributedKeepsIds | frontend/components/kanban/kanban-board.tsx:33-52 | every task is placed exactly once: the ids across all columns are the input's ids |
| Kanban.DistributedPlacement | frontend/components/kanban/kanban-board.tsx:43-45 | with at least one agent column, task i sits, assigned to that column, in column i mod n |
| Kanban.InitialColumnsOk | frontend/components/kanban/kanban-board.tsx:61-64 | the initial columns are distinct, none is "unassigned", and each is `agent-<number>` |
| Kanban.InitialBoard | frontend/components/kanban/kanban-board.tsx:61-69 | the initial state is those columns and the round-robin board |
| Kanban.LeadingDigits | frontend/components/kanban/kanban-board.tsx:221 | the length of the leading digit run read by `parseInt` |
| Kanban.MaxPlusOne | frontend/components/kanban/kanban-board.tsx:218-223 | one above the largest number, or NaN when some name has none |
| Kanban.ColumnNumber | frontend/components/kanban/kanban-board.tsx:221 | definition: `parseInt` of the part after the first dash, "0" when it is missing or empty |
| Kanban.NextColumnName | frontend/components/kanban/kanban-board.tsx:218-224 | the new column's name starts with `agent-` |
| Kanban.AddAgent | frontend/components/kanban/kanban-board.tsx:216-227 | no change at four columns; otherwise exactly one new empty column at the end, and nothing else changes |
| Kanban.AgentNameNumber | frontend/components/kanban/kanban-board.tsx:221 | `parseInt` reads back the number of a well-formed column name |
| Kanban.AddAgentFresh | frontend/components/kanban/kanban-board.tsx:216-227 | on columns that are all `agent-<number>`, the next name is well formed and not already used, and the columns stay distinct |
| Kanban.NumberedName | frontend/components/kanban/kanban-board.tsx:224 | `agent-k` is well formed and reads back as k |
| Kanban.ForeignNameGivesNaN | frontend/components/kanban/kanban-board.tsx:218-224 | one column without a number makes the next name `agent-NaN` |
| Kanban.ForeignNameHasNoNumber | frontend/components/kanban/kanban-board.tsx:221 | a name whose part after the dash starts with a non-digit and has no further dash has no number |
| Kanban.FindColumn | frontend/components/kanban/kanban-board.tsx:87-95 | the first listed column holding a task with the id, or none |
| Kanban.DragOver | frontend/components/kanban/kanban-board.tsx:101-143 | definition of the drag-over updater (its properties are the `DragOver…` lemmas) |
| Kanban.MoveAcross | frontend/components/kanban/kanban-board.tsx:118-139 | definition of the move between two known columns |
| Kanban.MoveAcrossShape | frontend/components/kanban/kanban-board.tsx:118-139 | the source loses the dragged task, the destination gains it reassigned, before the hovered task or at the end, and no other column changes |
| Kanban.DragOverChangesIff | frontend/components/kanban/kanban-board.tsx:101-143 | the board changes exactly when the drag crosses columns with a known task |
| Kanban.DragOverMovesOne | frontend/components/kanban/kanban-board.tsx:118-139 | the source loses exactly the dragged task, and the destination gains it, reassigned, before the hovered task or at the end |
| Kanban.MoveAcrossIds | frontend/components/kanban/kanban-board.tsx:118-139 | moving one task between listed columns keeps the ids across them |
| Kanban.MoveAcrossKeepsIds | frontend/components/kanban/kanban-board.tsx:118-139 | the move keeps the ids across all columns |
| Kanban.DragOverKeepsIds | frontend/components/kanban/kanban-board.tsx:101-143 | a drag keeps the multiset of task ids |
| Kanban.MoveAcrossConsistent | frontend/components/kanban/kanban-board.tsx:126-129 | the move keeps every assignee equal to its column |
| Kanban.DragOverConsistent | frontend/components/kanban/kanban-board.tsx:101-143 | a drag keeps every assignee equal to its column |
| Kanban.DragEndReorders | frontend/components/kanban/kanban-board.tsx:145-176 | every column keeps its multiset of tasks; when the board changes, exactly one column changes, and in it the dragged task now sits where the hovered task was |
| Kanban.DragEnd | frontend/components/kanban/kanban-board.tsx:145-176 | definition of the drag-end updater: a same-column drop onto another task moves the dragged task there |
| Kanban.DragEndConsistent | frontend/components/kanban/kanban-board.tsx:163-173 | a reorder keeps assignees matching columns |
| Kanban.UpdateTask | frontend/components/kanban/kanban-board.tsx:178-191 | every task with the id gets the description; nothing else changes |
| Kanban.WithoutId | frontend/components/kanban/kanban-board.tsx:197 | the filter never lengthens the list |
| Kanban.WithoutIdMembers | frontend/components/kanban/kanban-board.tsx:197 | the filter keeps exactly the tasks with other ids |
| Kanban.WithoutIdMembersAll | frontend/components/kanban/kanban-board.tsx:193-201 | the same for every column of a board |
| Kanban.WithoutIdAppend | frontend/components/kanban/kanban-board.tsx:197 | the filter keeps order: filtering a concatenation filters each part |
| Kanban.WithoutIdSingle | frontend/components/kanban/kanban-board.tsx:197 | a single task survives exactly when its id differs |
| Kanban.WithoutIdAbsent | frontend/components/kanban/kanban-board.tsx:197 | a list without the id is unchanged |
| Kanban.WithoutIdIds | frontend/components/kanban/kanban-board.tsx:197 | filtering drops every copy of the id and keeps the other ids |
| Kanban.RemoveTask | frontend/components/kanban/kanban-board.tsx:193-201 | every column loses the tasks with the id, and only those |
| Kanban.RemoveTaskKeepsOrder | frontend/components/kanban/kanban-board.tsx:193-201 | each column keeps its order: a split column is filtered part by part, and a column without the id is unchanged |
| Kanban.RemoveTaskIds | frontend/components/kanban/kanban-board.tsx:193-201 | in every column the id's copies are gone and the other ids remain |
| Kanban.AddTask | frontend/components/kanban/kanban-board.tsx:203-214 | one empty pending task, assigned to the column (none in "unassigned"), is appended to that column only |
| Kanban.UpdateTaskKeeps | frontend/components/kanban/kanban-board.tsx:178-191 | editing keeps ids and assignees |
| Kanban.FlattenIds | frontend/components/kanban/kanban-board.tsx:178-201 | boards with the same ids column by column have the same flattened ids |
| Kanban.RemoveTaskConsistent | frontend/components/kanban/kanban-board.tsx:193-201 | removal keeps the assignees right |
| Kanban.AddTaskKeeps | frontend/components/kanban/kanban-board.tsx:203-214 | the new task takes its column as assignee and is the only new id |
| Kanban.NewTask | frontend/components/kanban/kanban-board.tsx:204-209 | definition: an empty pending task assigned to its column, or to nobody in "unassigned" |
| Kanban.Without | frontend/components/kanban/kanban-board.tsx:230 | the columns other than the removed one |
| Kanban.WithoutAppend | frontend/components/kanban/kanban-board.tsx:230 | the column filter keeps order: filtering a concatenation filters each part |
| Kanban.WithoutSingle | frontend/components/kanban/kanban-board.tsx:230 | a single column survives exactly when it is another one |
| Kanban.WithoutAbsent | frontend/components/kanban/kanban-board.tsx:230 | removing an absent column changes nothing |
| Kanban.Orphaned | frontend/components/kanban/kanban-board.tsx:232-235 | the removed column's tasks, in order, with no assignee |
| Kanban.FlattenWithout | frontend/components/kanban/kanban-board.tsx:236-238 | the ids across the columns are the ids across the others plus the removed column's ids |
| Kanban.RemoveAgentKeepsIds | frontend/components/kanban/kanban-board.tsx:229-241 | removing an agent column loses no task: the ids across the remaining columns are unchanged |
| Kanban.RemoveAgentFlattened | frontend/components/kanban/kanban-board.tsx:229-241 | after removal "unassigned" holds its old tasks and then the orphans |
| Kanban.RemoveAgentConsistent | frontend/components/kanban/kanban-board.tsx:229-241 | removal keeps assignees matching columns |
| Kanban.RemoveAgent | frontend/components/kanban/kanban-board.tsx:229-241 | definition of the remove-agent updater (its properties are the `RemoveAgent…` lemmas) |
| Kanban.NotBlankIff | frontend/components/kanban/kanban-board.tsx:263 | the trimmed-length filter keeps exactly the tasks that are not all whitespace |
| Kanban.ValidTasksMembers | frontend/components/kanban/kanban-board.tsx:263 | the filter keeps exactly the non-blank tasks |
| Kanban.ValidTasksAppend | frontend/components/kanban/kanban-board.tsx:263 | the filter distributes over concatenation |
| Kanban.ValidTasks | frontend/components/kanban/kanban-board.tsx:263 | the non-blank filter never lengthens the list |
| Kanban.RoundRobinAssigned | frontend/components/kanban/kanban-board.tsx:253-260 | one dealt task per unassigned task |
| Kanban.RoundRobinAssignees | frontend/components/kanban/kanban-board.tsx:253-260 | dealing changes only assignees, and with an agent column every dealt task is assigned to one of them |
| Kanban.ApprovedTasks | frontend/components/kanban/kanban-board.tsx:243-265 | definition: the agent columns' tasks, then the dealt unassigned ones, blank ones dropped |
| Kanban.Approve | frontend/components/kanban/kanban-board.tsx:243-265 | hands on the non-blank tasks of the agent columns in order, then the dealt unassigned ones, and the number of agent columns |
| Kanban.ApprovedNotBlank | frontend/components/kanban/kanban-board.tsx:263 | every approved task has a description |
| Kanban.ApprovedAllAssigned | frontend/components/kanban/kanban-board.tsx:248-260 | with an agent column, on a consistent board, every approved task is assigned to an agent column |
| Kanban.ApproveBlankKeepsSlot | frontend/components/kanban/kanban-board.tsx:253-263 | a blank unassigned task is dropped but still takes its round-robin turn |
| Kanban.ValidCountFlatten | frontend/components/kanban/kanban-board.tsx:267-270 | the count summed per column equals the count of the flattening |
| Kanban.TotalValidTasks | frontend/components/kanban/kanban-board.tsx:267-270 | the counter is the number of non-blank tasks across all columns |
| Kanban.DealtValidCount | frontend/components/kanban/kanban-board.tsx:253-263 | dealing keeps the number of non-blank tasks |
| Kanban.ApproveCountMatchesTotal | frontend/components/kanban/kanban-board.tsx:243-270 | the counter on the approve button counts exactly the tasks approval hands on |
| ThinkingSidebar.TrailingDigits | frontend/components/thinking-sidebar.tsx:28 | the longest run of digits at the end of the id |
| ThinkingSidebar.Take | frontend/components/thinking-sidebar.tsx:29 | `slice(0, n)`: a prefix of length min(n, length) |
| ThinkingSidebar.AgentNumber | frontend/components/thinking-sidebar.tsx:27-30 | with no trailing digit, the first four characters; otherwise a decimal numeral without leading zeros |
| ThinkingSidebar.TrailingDigitsOf | frontend/components/thinking-sidebar.tsx:28 | digits after a non-digit are exactly the trailing run |
| ThinkingSidebar.AgentNumberOfNumbered | frontend/components/thinking-sidebar.tsx:27-30 | a zero-padded number after a non-digit reads back as the number (`agent-001` gives `1`) |
| ThinkingSidebar.AgentIndex | frontend/components/thinking-sidebar.tsx:32-35 | the first position of the agent, or 0 when it is absent |
| ThinkingSidebar.Hue | frontend/components/thinking-sidebar.tsx:38 | the hue lies in [0, 360) and is a multiple of 90 |
| ThinkingSidebar.AgentColour | frontend/components/thinking-sidebar.tsx:37-43 | the background and text colour strings for that hue |
| ThinkingSidebar.AgentColourCycle | frontend/components/thinking-sidebar.tsx:37-43 | colours repeat every four agents, and the first four differ |
| ThinkingSidebar.SliceFromEnd | frontend/components/thinking-sidebar.tsx:61 | `slice(-n)` is the last n characters, and the whole text for n = 0 |
| ThinkingSidebar.SmartTruncate | frontend/components/thinking-sidebar.tsx:59-62 | short texts unchanged; longer ones become head, ellipsis, tail, of length start+end+1, starting with the head |
| ThinkingSidebar.ChipTextBounded | frontend/components/thinking-sidebar.tsx:59-62 | with the defaults the result is at most 33 characters, and the text is unchanged exactly when it fits |
| ThinkingSidebar.Call | frontend/components/thinking-sidebar.tsx:71-83 | a chip reads `name(` … `)` |
| ThinkingSidebar.Quoted | frontend/components/thinking-sidebar.tsx:71-75 | a quoted text is two characters longer |
| ThinkingSidebar.FormatToolChip | frontend/components/thinking-sidebar.tsx:64-85 | every chip is `name(…)`; `click` shows the truncated element when truthy, else the coordinates; `type_text` shows the truncated text quoted; `press_key` the key; `scroll` the direction then the amount; `move_mouse` the coordinates; unknown tools show `{…}` |
| ThinkingSidebar.TypeTextChipBounded | frontend/components/thinking-sidebar.tsx:74-75 | with printable arguments a `type_text` chip is at most 46 characters: the name, the parentheses, the quotes and a truncated text |
| ThinkingSidebar.OfAgent | frontend/components/thinking-sidebar.tsx:215 | the filter keeps only that agent's entries |
| ThinkingSidebar.OfAgentMembers | frontend/components/thinking-sidebar.tsx:215 | an entry survives exactly when it belongs to the agent |
| ThinkingSidebar.DisplayWindow | frontend/components/thinking-sidebar.tsx:213-223 | the last 200 filtered entries in order, and `trimmed` exactly when more than 200 matched |
| ThinkingSidebar.NewestShown | frontend/components/thinking-sidebar.tsx:213-223 | with an agent selected, every shown entry is that agent's, and the window is not empty when the agent has any entry |
| ThinkingSidebar.ThreadMap | frontend/components/thinking-sidebar.tsx:226-238 | the loop builds the entry-to-thread map |
| ThinkingSidebar.ThreadsOf | frontend/components/thinking-sidebar.tsx:226-238 | definition: each entry's id mapped to its thread, later ids overwriting earlier ones |
| ThinkingSidebar.ThreadIsRunStart | frontend/components/thinking-sidebar.tsx:226-238 | an entry's thread is the id of the first entry of its same-agent run |
| ThinkingSidebar.ThreadsOfDistinct | frontend/components/thinking-sidebar.tsx:226-238 | with distinct entry ids the map sends each entry to its own thread |
| ThinkingSidebar.EntryThread | frontend/components/thinking-sidebar.tsx:378 | the mapped thread, or the entry itself when the map gives nothing |
| ThinkingSidebar.LeadingEmptyAgentOwnThread | frontend/components/thinking-sidebar.tsx:228-235 | an entry with an empty agent id at the front maps to "" and falls back to its own id |
| ThinkingSidebar.ToggleThread | frontend/components/thinking-sidebar.tsx:275-285 | exactly the one thread id flips membership |
| ThinkingSidebar.ToggleTwice | frontend/components/thinking-sidebar.tsx:275-285 | toggling twice restores the set |
| R2.FrameNumber | frontend/lib/r2.ts:32 | at least four digits |
| R2.FrameKey | frontend/lib/r2.ts:32 | definition: the session and agent prefix, then `frame-`, the padded index and `.jpg` |
| R2.ManifestKey | frontend/lib/r2.ts:44 | definition: the session and agent prefix, then `manifest.json` |
| R2.GenerateUploadUrls | frontend/lib/r2.ts:22-50 | one signed URL per frame key, in index order, plus the signed manifest key |
| R2.PublicUrl | frontend/lib/r2.ts:55-57 | the public base, a slash, then the key |
| R2.FrameKeysDistinct | frontend/lib/r2.ts:32 | distinct frames get distinct keys |
| R2.ManifestKeyNotFrameKey | frontend/lib/r2.ts:32-44 | the manifest key is never a frame key |
| Replay.BuildManifest | workers/replay.py:111-125 | frameCount is the number of frames; frame i has index i, the i-th timestamp and action, and the URL of frame i |
| Replay.FrameUrl | workers/replay.py:120 | definition: the public prefix, the upload prefix, then `frame-`, the zero-filled index and `.jpg` |
| Replay.ManifestPublicUrl | workers/replay.py:136 | definition: the public prefix, the upload prefix, then `manifest.json` |
| Replay.WorkerUrlsMatchSignedKeys | workers/replay.py:120 | the URL the worker records for frame i is the public URL of the key the backend signs for frame i |
| Replay.ManifestUrlMatchesSignedKey | workers/replay.py:136 | the manifest URL the worker returns is the public URL of the signed manifest key |
| Replay.FramePuts | workers/replay.py:90-98 | frame i is PUT to the i-th signed URL |
| Replay.ReplayBuffer.constructor | workers/replay.py:27-28 | the buffer starts empty |
| Replay.ReplayBuffer.CaptureFrame | workers/replay.py:30-49 | a successful capture appends exactly one frame with the action label; a failed one appends nothing; the frame count follows |
| Replay.ReplayBuffer.Upload | workers/replay.py:51-142 | no frames means no request; otherwise the URL request, one PUT per frame, then the manifest; success exactly when the URLs came back usable and the manifest PUT succeeded, returning the manifest URL and the count |
| Replay.UploadedKeysAreListedKeys | workers/replay.py:90-125 | frame i goes to the signed URL of frame key i, and the manifest lists the public URL of that same key |
| ReplayScrubber.Back | frontend/components/replay-scrubber.tsx:98 | one step back, never below 0 |
| ReplayScrubber.Forward | frontend/components/replay-scrubber.tsx:101 | one step forward, never past the last frame |
| ReplayScrubber.TickIndex | frontend/components/replay-scrubber.tsx:72-78 | at the last frame playback stops and the index stays; otherwise the index advances |
| ReplayScrubber.BackForwardInverse | frontend/components/replay-scrubber.tsx:96-101 | away from the ends, back and forward undo each other |
| ReplayScrubber.PlayReachesEnd | frontend/components/replay-scrubber.tsx:69-79 | playback from i stops at the last frame after exactly total-1-i advances |
| ReplayScrubber.NewUrlsFresh | frontend/components/replay-scrubber.tsx:58-65 | the requested URLs are new, each appears once, and with the old set they are the window's URLs |
| ReplayScrubber.PreloadStep | frontend/components/replay-scrubber.tsx:59-64 | one loop iteration keeps the requests in step with the specification |
| ReplayScrubber.PreloadWindow | frontend/components/replay-scrubber.tsx:56-66 | the loop requests exactly the new URLs of the window, in order, and adds the window to the set |
| ReplayScrubber.Player.constructor | frontend/components/replay-scrubber.tsx:17-25 | no manifest, index 0, not playing, nothing preloaded |
| ReplayScrubber.Player.Loaded | frontend/components/replay-scrubber.tsx:38-41 | the manifest arrives and nothing else changes |
| ReplayScrubber.Player.KeyDown | frontend/components/replay-scrubber.tsx:93-108 | ignored without a manifest; the arrows move the cursor by `Back` and `Forward`; space toggles playback; the cursor stays on a frame |
| ReplayScrubber.Player.TogglePlay | frontend/components/replay-scrubber.tsx:205 | playback flips and the cursor stays |
| ReplayScrubber.Player.GoToStart | frontend/components/replay-scrubber.tsx:196 | the cursor goes to 0 |
| ReplayScrubber.Player.GoToEnd | frontend/components/replay-scrubber.tsx:218 | the cursor goes to the last frame |
| ReplayScrubber.Player.Seek | frontend/components/replay-scrubber.tsx:179-185 | the slider sets the cursor to any frame position and nothing else changes |
| ReplayScrubber.Player.Tick | frontend/components/replay-scrubber.tsx:71-78 | one tick follows `TickIndex` and keeps the cursor in range |
| ReplayScrubber.Player.Preload | frontend/components/replay-scrubber.tsx:56-66 | frames from the cursor to min(cursor+5, total) are requested once each, and the set grows by the window |
| Orchestrator.FenceBounds | frontend/lib/orchestrator.ts:36 | no fence means no match; match bounds are ordered and inside the text |
| Orchestrator.ExtractFence | frontend/lib/orchestrator.ts:36-37 | no fence means no match; a captured body has no surrounding whitespace |
| Orchestrator.BlockBounds | frontend/lib/orchestrator.ts:36 | for a block after backtick-free text, the match starts after the fence and its optional `json` tag, and ends at the closing fence, so the inner text is the line break, the body and a line break |
| Orchestrator.ReadTodos | frontend/lib/orchestrator.ts:39-43 | a parse failure fails; a null result or a missing or non-array `todos` fails; when `todos` is an array, success exactly when no item is null, with one description per todo, in order |
| Orchestrator.DecomposeTasks | frontend/lib/orchestrator.ts:32-43 | unparseable text fails; a missing or non-array `todos` fails with the message; when `todos` is an array, the call succeeds exactly when no item is null, and then yields one description per todo, in order |
| Orchestrator.NullContentIsEmpty | frontend/lib/orchestrator.ts:32 | null content and empty content are both parsed as "" |
| Orchestrator.ParsedText | frontend/lib/orchestrator.ts:32-39 | definition: the content, "" when null, or the body of its first fenced block |
| Orchestrator.UnfencedParsedWhole | frontend/lib/orchestrator.ts:36-39 | without a fence the whole content is parsed |
| Orchestrator.FencedBodyExtracted | frontend/lib/orchestrator.ts:36-37 | a reply wrapping a trimmed body in a fenced block, optionally tagged json, yields exactly that body |
| Orchestrator.FencedReplyParsesBody | frontend/lib/orchestrator.ts:36-39 | such a reply is parsed from the body alone |
| Orchestrator.FencedReplyDecomposed | frontend/lib/orchestrator.ts:32-43 | decomposing a reply with one fenced block gives the same result as decomposing its body alone |
| K2Think.StripOpenFence | frontend/lib/k2-think.ts:102 | a text that does not start with a fence is unchanged; otherwise what remains does not start with whitespace |
| K2Think.FindClosingFence | frontend/lib/k2-think.ts:103 | the leftmost fence followed only by whitespace |
| K2Think.StripCloseFence | frontend/lib/k2-think.ts:103 | the text is cut at that fence |
| K2Think.Cleanup | frontend/lib/k2-think.ts:101-104 | the result has no surrounding whitespace |
| K2Think.UnfencedOnlyTrimmed | frontend/lib/k2-think.ts:101-104 | a reply without a fence is only trimmed |
| K2Think.OpenFenceStripped | frontend/lib/k2-think.ts:102 | after the opening fence and tag the text starts at the body |
| K2Think.CloseFenceStripped | frontend/lib/k2-think.ts:103 | the cut falls at the closing fence |
| K2Think.FencedReplyCleaned | frontend/lib/k2-think.ts:101-104 | a fenced reply, tagged or not, is cleaned to exactly its body |
| K2Think.DecomposeUserPrompt | frontend/lib/k2-think.ts:96 | the prompt sent has no surrounding whitespace and is no longer than the prompt |
| K2Think.NumberedListLines | frontend/lib/k2-think.ts:130 | line k of the list is `k+1. task k` |
| K2Think.RefineUserPrompt | frontend/lib/k2-think.ts:127-132 | the original prompt and the numbered list come first, and the trimmed refinement ends the prompt |
| K2Think.NumberedList | frontend/lib/k2-think.ts:130 | definition: the tasks numbered from 1 and joined by line breaks (its lines are stated by `NumberedListLines`) |
| K2Think.Unavailability | frontend/lib/k2-think.ts:72-74 | the wrapping message names the endpoint and ends with the cause |
| K2Think.CallK2Think | frontend/lib/k2-think.ts:60-75 | success exactly for an OK status whose content could be read, giving that content or null; every failure starts with the unavailability prefix; a non-OK status wraps the status and body text |
| K2Think.TodoDescriptions | frontend/lib/k2-think.ts:105-106 | unparseable text fails; a success has one description per todo |
| K2Think.DecomposeTasksWithK2 | frontend/lib/k2-think.ts:82-107 | the trimmed prompt is what is sent; an answered call with text yields the descriptions of the cleaned reply; an answered call with null content fails with the unprefixed TypeError from `.replace`; every other outcome fails with the unavailability message naming the endpoint, and a thrown fetch keeps its cause |
| K2Think.RefineTasksWithK2 | frontend/lib/k2-think.ts:112-143 | the refine prompt is what is sent; an answered call with text yields the descriptions of the cleaned reply; an answered call with null content fails with the unprefixed TypeError from `.replace`; every other outcome fails with the unavailability message naming the endpoint, and a thrown fetch keeps its cause |
| K2Think.DecomposeReadsFencedBody | frontend/lib/k2-think.ts:98-106 | a fenced reply is parsed from its body |
| K2Think.RefineReadsFencedBody | frontend/lib/k2-think.ts:134-142 | a fenced refine reply is parsed from its body |
| E2bTools.Click | workers/e2b_tools.py:25-28 | one left click, and the message |
| E2bTools.DoubleClickAt | workers/e2b_tools.py:31-34 | one double click, and the message |
| E2bTools.PressKey | workers/e2b_tools.py:48-51 | one key press, and the message |
| E2bTools.MoveMouseTo | workers/e2b_tools.py:54-57 | one pointer move, and the message |
| E2bTools.ScrollAt | workers/e2b_tools.py:60-64 | a move to the point, then the scroll, and the message |
| E2bTools.TypeText | workers/e2b_tools.py:37-45 | the loop performs exactly the typing actions of the newline-split text |
| E2bTools.TypingReplays | workers/e2b_tools.py:39-44 | the actions from piece i on type the remaining pieces joined by newlines, with one Enter per newline |
| E2bTools.TypeTextFaithful | workers/e2b_tools.py:37-45 | typing reproduces the text exactly, with as many Enter presses as newlines |
| E2bTools.TypingWritesPieces | workers/e2b_tools.py:41-42 | written pieces are non-empty and newline-free |
| E2bTools.TypeTextWritesLines | workers/e2b_tools.py:39-42 | typing a text writes only non-empty pieces without newlines |
| E2bTools.ExecuteTool | workers/e2b_tools.py:196-203 | `done` returns the summary or "Task complete"; an unknown name returns the message; a failure exactly when the keywords do not bind or `type_text` gets a non-string, with the sandbox untouched; otherwise the tool's actions are performed and its own message is returned |
| E2bTools.RunBound | workers/e2b_tools.py:203 | a bound call performs exactly the tool's actions and returns that tool's message |
| E2bTools.ToolMessage | workers/e2b_tools.py:25-64 | definition: the message each tool returns, over its bound arguments, defaults included |
| E2bTools.SchemaNames | workers/e2b_tools.py:81-193 | the schema names, in order |
| E2bTools.ToolFunctions | workers/e2b_tools.py:69-76 | definition: the six callable tools and their parameters, with `scroll`'s defaults |
| E2bTools.ToolSchemas | workers/e2b_tools.py:81-193 | definition: the seven schemas, their properties and required properties |
| E2bTools.SchemasMatchFunctions | workers/e2b_tools.py:69-193 | every schema except `done` names a callable tool, and every tool has a schema |
| E2bTools.SchemaCallsBind | workers/e2b_tools.py:60-193 | a call that follows its schema always binds to the function |
| Middleware.Gate | frontend/middleware.ts:9-23 | pass exactly when the path is public or the user is signed in; otherwise redirect to the sign-in page with the path as callback |
| Middleware.IsPublic | frontend/middleware.ts:9-15 | definition: the five public prefixes and the exact health path |
| Middleware.RedirectTargetPasses | frontend/middleware.ts:10-20 | the sign-in page is public, so a redirect never redirects again |
| Middleware.DemoPrefixPublic | frontend/middleware.ts:12 | anything under `/session/demo` is public |
| Middleware.HealthIsExact | frontend/middleware.ts:15 | a path below `/api/health/` is gated |
| Register.Rejection | frontend/app/api/auth/register/route.ts:15-40 | missing email or password gives 400; a short password gives 400; a taken email gives 409; nothing exactly when all pass |
| Register.UserTable.constructor | frontend/lib/db/schema.ts:1 | no users |
| Register.UserTable.Register | frontend/app/api/auth/register/route.ts:7-54 | a rejection changes nothing; otherwise 201 with the id and exactly one user appended, with a blank name stored as null; emails stay unique |
| Register.SecondRegistrationConflicts | frontend/app/api/auth/register/route.ts:29-40 | a second registration with the same email gets 409 and inserts nothing |
| Strings.TrimOfTrimmed | frontend/app/api/sessions/route.ts:40 | a text without surrounding whitespace is its own trim, so trimming twice equals trimming once |
| Strings.TrimEmptyIff | frontend/app/api/sessions/route.ts:23 | the trimmed text is empty exactly when the text is all whitespace |
| Strings.TrimStart | frontend/app/api/sessions/route.ts:23 | the result is a suffix of the text, the cut part is all whitespace, and the result does not start with whitespace |
| Strings.TrimEnd | frontend/app/api/sessions/route.ts:23 | the result is a prefix of the text, the cut part is all whitespace, and the result does not end with whitespace |
| Strings.IndexOf | frontend/lib/orchestrator.ts:36 | -1 exactly when the pattern does not occur from the given position on; otherwise the first such position |
| Strings.PadStart | frontend/lib/r2.ts:32 | the result is the text, filled on the left up to the width |
| Strings.ZFill | workers/replay.py:120 | the result has the text's length, or the width when the text is shorter |
| Strings.JoinSplit | workers/e2b_tools.py:39 | joining the split pieces gives back the text |
| Strings.SplitCount | workers/e2b_tools.py:39 | there is one more piece than separators |
| Strings.SplitJoin | frontend/lib/k2-think.ts:130 | splitting a join of separator-free pieces gives back the pieces |
| Strings.ShowInjective | frontend/lib/r2.ts:32 | different numbers have different decimal forms |
| Strings.ZFillIsPadStart | workers/replay.py:120 | for unsigned text, `zfill` and `padStart` with "0" agree |
| Strings.ParsePadded | frontend/components/thinking-sidebar.tsx:29 | a zero-padded decimal parses to the number |
| Strings.PaddedShowInjective | frontend/lib/r2.ts:32 | padded forms of different numbers differ |
| Js.Get | frontend/app/api/sessions/route.ts:18 | property access fails exactly on null and undefined; missing keys read undefined |
| Js.MapGet | frontend/lib/orchestrator.ts:43 | the map succeeds exactly when no item is nullish, with one value per item |

## Left out

- Persistence, the database layer and the `createdAt` timestamp of a session are not modelled.
  Ids from `uuidv4`, `Date.now` and `Math.random` are parameters.
- The language-model calls, `JSON.parse`, bcrypt hashing and `fetch` are parameters or abstract results.
  Their system prompts are fixed texts and are not modelled.
- SessionsRoute.Post: the decomposition is one abstract result. The text-block lookup, `JSON.parse` and the `todos` map are not traced.
  They are modelled separately for the other decomposers.
- SessionsRoute.Check uses the corrected agent-count check (see Findings).
- SessionsRoute.Post answers 400 for a fractional agent count such as 2.5. The handler as written answers 201, records 2.5 agents and starts 3 workers.
  The model follows the corrected check; the as-written check is `FractionalAgentCountAccepted`.
- Worker processes, their stdout and stderr logging, the environment they get and the exit code are not modelled.
  The exit handler is modelled as deleting from the table the worker was spawned into.
- The socket.io transport, rooms and the client side are not modelled; the hub is an event log.
- Kanban.ArrayMove is dnd-kit's `arrayMove`, written out from its documented behaviour.
  The library is not part of this model.
- Kanban: stale `useCallback` closures are not modelled.
  Each updater is applied to the state it is given.
- Kanban.ColumnNumber: `parseInt` on column names reads decimal digits only.
  Leading whitespace, signs and the precision limit of large numbers are not modelled.
- ThinkingSidebar.AgentNumber: `parseInt` over a long digit run loses precision past 2^53. The model keeps exact numbers.
- ThinkingSidebar.FormatToolChip: only integer numbers are rendered exactly; JavaScript's decimal rendering of fractional numbers is not modelled.
- ThinkingSidebar: a character stands for one UTF-16 code unit, as JavaScript's lengths and slices count them. How a cut surrogate pair is displayed is not modelled.
- ThinkingSidebar: the typewriter effect, scrolling, relative times and the rest of the component's rendering are not modelled.
- ReplayScrubber: the manifest fetch, the timer and the image loader are not modelled.
  One interval firing is `Tick`, and the loader is the list of requested URLs.
  A change of the `manifestUrl` prop is not modelled.
- Replay: image decoding and JPEG encoding are external. A capture yields the encoded bytes or fails.
- Replay.ReplayBuffer.Upload: the frame PUTs' statuses are only logged. The JSON serialisation of the manifest is not modelled.
- E2bTools: the `init` global and the screenshot helpers are not modelled; the sandbox is an action trace.
- E2bTools.Show renders only integer and string arguments. Python's formatting of other argument types is not modelled.
- Middleware: the matcher configuration is not modelled, nor is the URL encoding of the `callbackUrl` parameter.
- Register: `email` and `password` are modelled as optional strings. Other JSON values in those fields are not modelled.
  The user lookup is a scan of the table.

## Findings

| source | as written | input that shows it | evidently intended | confidence | as-written member | corrected member |
|---|---|---|---|---|---|---|
| frontend/app/api/sessions/route.ts:27-37 | the agent count only has to be a truthy number from 1 to 4 | `agentCount: 2.5` passes; the session records 2.5 agents and the spawn loop starts 3 workers | only the whole numbers 1 to 4 are accepted, and exactly that many workers start | not executed | SessionsRoute.FractionalAgentCountAccepted | SessionsRoute.AgentCountValidIff |
