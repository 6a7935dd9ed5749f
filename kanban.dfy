/**
 * The pre-approval task board (frontend/components/kanban/kanban-board.tsx): the
 * decomposed todos laid out in an "unassigned" column and one column per agent,
 * edited by dragging, adding, removing and renaming, and flattened on approval.
 * Every updater of the component maps the previous board to a fresh one; the
 * two that build their result with loops (the initial round-robin layout and the
 * approval) are methods proved against specification functions.
 */
module Kanban {
  import opened Wrappers
  import Strings
  import opened SessionStore

  const Unassigned := "unassigned"
  const MaxAgents := 4

  /** `Record<string, Todo[]>`: the tasks of each column, in display order. */
  type Board = map<string, seq<Todo>>

  /** The component state: the agent columns in display order and the board. */
  datatype BoardState = BoardState(agentColumns: seq<string>, tasks: Board)

  /** `prev[col] || []`: a column that is not on the board reads as empty. */
  function Column(b: Board, col: string): seq<Todo> {
    if col in b then b[col] else []
  }

  /** The assignee a task takes in a column: none in the unassigned column. */
  function AssigneeFor(col: string): Option<string> {
    if col == Unassigned then None else Some(col)
  }

  /** `[UNASSIGNED, ...agentColumns]`. */
  function AllColumns(agentColumns: seq<string>): seq<string> {
    [Unassigned] + agentColumns
  }

  predicate Distinct(cols: seq<string>) {
    forall i, j :: 0 <= i < j < |cols| ==> cols[i] != cols[j]
  }

  /** Agent columns as the board creates them: distinct, and never the unassigned column. */
  predicate ColumnsOk(agentColumns: seq<string>) {
    Distinct(agentColumns) && Unassigned !in agentColumns
  }

  /** Every task's `assignedTo` names the column that holds it (none in "unassigned"). */
  predicate AssigneesConsistent(b: Board) {
    forall c, i :: c in b && 0 <= i < |b[c]| ==> b[c][i].assignedTo == AssigneeFor(c)
  }

  /** JavaScript truthiness of a column lookup: null and the empty name are falsy. */
  predicate Present(col: Option<string>) {
    col.Some? && col.value != ""
  }

  lemma AllColumnsDistinct(agentColumns: seq<string>)
    requires ColumnsOk(agentColumns)
    ensures Distinct(AllColumns(agentColumns))
  {
    var all := AllColumns(agentColumns);
    forall i, j | 0 <= i < j < |all| ensures all[i] != all[j] {
      if i == 0 {
        assert all[j] == agentColumns[j - 1];
      } else {
        assert all[i] == agentColumns[i - 1] && all[j] == agentColumns[j - 1];
      }
    }
  }

  // ---------------------------------------------------------------------------
  // Task ids and the flattened board

  /** The ids of a list of tasks, in order. */
  function IdList(ts: seq<Todo>): (r: seq<string>)
    ensures |r| == |ts| && forall i :: 0 <= i < |ts| ==> r[i] == ts[i].id
  {
    seq(|ts|, i requires 0 <= i < |ts| => ts[i].id)
  }

  /** The multiset of task ids in a list. */
  function Ids(ts: seq<Todo>): multiset<string> {
    multiset(IdList(ts))
  }

  lemma IdsAppend(a: seq<Todo>, b: seq<Todo>)
    ensures Ids(a + b) == Ids(a) + Ids(b)
  {
    assert IdList(a + b) == IdList(a) + IdList(b);
  }

  lemma IdsSnoc(ts: seq<Todo>)
    requires |ts| > 0
    ensures Ids(ts) == Ids(ts[..|ts| - 1]) + multiset{ts[|ts| - 1].id}
  {
    assert IdList(ts) == IdList(ts[..|ts| - 1]) + [ts[|ts| - 1].id];
  }

  lemma Cancel(a: multiset<string>, b: multiset<string>, c: multiset<string>)
    requires a + c == b + c
    ensures a == b
  {
    forall x ensures a[x] == b[x] {
      assert (a + c)[x] == (b + c)[x];
    }
  }

  /** The tasks of the given columns, column after column. */
  function Flatten(b: Board, cols: seq<string>): seq<Todo> {
    if |cols| == 0 then [] else Flatten(b, cols[..|cols| - 1]) + Column(b, cols[|cols| - 1])
  }

  /** Only the listed columns matter to a flattening. */
  lemma {:induction false} FlattenAgree(b1: Board, b2: Board, cols: seq<string>)
    requires forall c :: c in cols ==> Column(b1, c) == Column(b2, c)
    ensures Flatten(b1, cols) == Flatten(b2, cols)
  {
    if |cols| > 0 {
      FlattenAgree(b1, b2, cols[..|cols| - 1]);
    }
  }

  /** Replacing one listed column exchanges its ids and leaves every other id in place. */
  lemma {:induction false} FlattenUpdate(b: Board, cols: seq<string>, k: string, v: seq<Todo>)
    requires Distinct(cols) && k in cols
    ensures Ids(Flatten(b[k := v], cols)) + Ids(Column(b, k)) == Ids(Flatten(b, cols)) + Ids(v)
  {
    var n := |cols| - 1;
    var p := cols[..n];
    var c := cols[n];
    assert Distinct(p);
    var before := Ids(Flatten(b, p));
    var after := Ids(Flatten(b[k := v], p));
    assert Flatten(b, cols) == Flatten(b, p) + Column(b, c);
    assert Flatten(b[k := v], cols) == Flatten(b[k := v], p) + Column(b[k := v], c);
    if c == k {
      assert Column(b[k := v], c) == v;
      assert k !in p by {
        forall i | 0 <= i < n ensures p[i] != k {
          assert cols[i] != cols[n];
        }
      }
      FlattenAgree(b[k := v], b, p);
      IdsAppend(Flatten(b, p), v);
      IdsAppend(Flatten(b, p), Column(b, k));
      SumComm(before, Ids(v), Ids(Column(b, k)));
    } else {
      assert Column(b[k := v], c) == Column(b, c);
      assert k in p;
      FlattenUpdate(b, p, k, v);
      IdsAppend(Flatten(b[k := v], p), Column(b, c));
      IdsAppend(Flatten(b, p), Column(b, c));
      SumSwap(after, before, Ids(Column(b, c)), Ids(Column(b, k)), Ids(v));
    }
  }

  lemma SumComm(a: multiset<string>, x: multiset<string>, y: multiset<string>)
    ensures (a + x) + y == (a + y) + x
  {
    forall e ensures ((a + x) + y)[e] == ((a + y) + x)[e] {
    }
  }

  /** Adding the same ids to both sides of a balanced sum keeps it balanced. */
  lemma SumSwap(a: multiset<string>, b: multiset<string>, x: multiset<string>, k: multiset<string>, v: multiset<string>)
    requires a + k == b + v
    ensures (a + x) + k == (b + x) + v
  {
    forall e ensures ((a + x) + k)[e] == ((b + x) + v)[e] {
      assert (a + k)[e] == (b + v)[e];
    }
  }

  lemma {:induction false} FlattenCons(b: Board, c: string, cols: seq<string>)
    ensures Flatten(b, [c] + cols) == Column(b, c) + Flatten(b, cols)
  {
    if |cols| > 0 {
      FlattenCons(b, c, cols[..|cols| - 1]);
      assert ([c] + cols)[..|cols|] == [c] + cols[..|cols| - 1];
    } else {
      assert [c] + cols == [c];
    }
  }

  /** A task of a flattening comes from one of the listed columns. */
  lemma {:induction false} FlattenMember(b: Board, cols: seq<string>, t: Todo)
    requires t in Flatten(b, cols)
    ensures exists c :: c in cols && t in Column(b, c)
  {
    var n := |cols| - 1;
    if t in Flatten(b, cols[..n]) {
      FlattenMember(b, cols[..n], t);
      var c :| c in cols[..n] && t in Column(b, c);
      assert c in cols;
    } else {
      assert t in Column(b, cols[n]);
    }
  }

  // ---------------------------------------------------------------------------
  // Sequence edits behind `splice` and `arrayMove`

  /** The position of the first task with the id (`findIndex`), or -1. */
  function FindIndex(ts: seq<Todo>, id: string): (r: int)
    ensures -1 <= r < |ts|
    ensures r == -1 <==> forall i :: 0 <= i < |ts| ==> ts[i].id != id
    ensures r >= 0 ==> ts[r].id == id && forall i :: 0 <= i < r ==> ts[i].id != id
  {
    if |ts| == 0 then -1
    else if ts[0].id == id then 0
    else
      var r := FindIndex(ts[1..], id);
      if r == -1 then -1 else r + 1
  }

  /** `splice(i, 1)`: the list without its i-th task. */
  function Remove(ts: seq<Todo>, i: nat): (r: seq<Todo>)
    requires i < |ts|
    ensures |r| == |ts| - 1
  {
    ts[..i] + ts[i + 1..]
  }

  /** `splice(i, 0, t)`: the list with `t` inserted before position `i`. */
  function Insert(ts: seq<Todo>, i: nat, t: Todo): (r: seq<Todo>)
    requires i <= |ts|
    ensures |r| == |ts| + 1 && r[i] == t
  {
    ts[..i] + [t] + ts[i..]
  }

  /** Insertion keeps the order: the tasks before position `i` stay in front, the others follow `t`. */
  lemma InsertKeepsOrder(ts: seq<Todo>, i: nat, t: Todo)
    requires i <= |ts|
    ensures Insert(ts, i, t)[..i] == ts[..i] && Insert(ts, i, t)[i + 1..] == ts[i..]
  {
    var r := Insert(ts, i, t);
    assert r == (ts[..i] + [t]) + ts[i..];
  }

  lemma RemoveIds(ts: seq<Todo>, i: nat)
    requires i < |ts|
    ensures Ids(Remove(ts, i)) + multiset{ts[i].id} == Ids(ts)
  {
    assert ts == ts[..i] + [ts[i]] + ts[i + 1..];
    IdsAppend(ts[..i] + [ts[i]], ts[i + 1..]);
    IdsAppend(ts[..i], [ts[i]]);
    IdsAppend(ts[..i], ts[i + 1..]);
  }

  lemma InsertIds(ts: seq<Todo>, i: nat, t: Todo)
    requires i <= |ts|
    ensures Ids(Insert(ts, i, t)) == Ids(ts) + multiset{t.id}
  {
    var pre, post := ts[..i], ts[i..];
    assert ts == pre + post;
    assert Insert(ts, i, t) == (pre + [t]) + post;
    IdsAppend(pre + [t], post);
    IdsAppend(pre, [t]);
    assert Ids([t]) == multiset{t.id};
    IdsAppend(pre, post);
  }

  /** `arrayMove` of dnd-kit: take the task at `from` out and put it back at `to`. */
  function ArrayMove(ts: seq<Todo>, from: nat, to: nat): (r: seq<Todo>)
    requires from < |ts| && to < |ts|
    ensures |r| == |ts| && r[to] == ts[from]
  {
    Insert(Remove(ts, from), to, ts[from])
  }

  /** A move rearranges the list: the same tasks, each as often as before. */
  lemma ArrayMovePermutes(ts: seq<Todo>, from: nat, to: nat)
    requires from < |ts| && to < |ts|
    ensures multiset(ArrayMove(ts, from, to)) == multiset(ts)
  {
    var x := ts[from];
    var rest := Remove(ts, from);
    assert ts == ts[..from] + [x] + ts[from + 1..];
    assert multiset(ts) == multiset(rest) + multiset{x};
    assert rest == rest[..to] + rest[to..];
    assert multiset(ArrayMove(ts, from, to)) == multiset(rest[..to]) + multiset{x} + multiset(rest[to..]);
  }

  /** Moving back from `to` to `from` undoes a move. */
  lemma ArrayMoveInverse(ts: seq<Todo>, from: nat, to: nat)
    requires from < |ts| && to < |ts|
    ensures ArrayMove(ArrayMove(ts, from, to), to, from) == ts
  {
    var m := ArrayMove(ts, from, to);
    var rest := Remove(ts, from);
    assert Remove(m, to) == rest;
    assert Insert(rest, from, ts[from]) == ts;
  }

  // ---------------------------------------------------------------------------
  // Initial layout: `distributeTasksRoundRobin`

  /** The board before any task is placed: the unassigned column and each agent column, empty. */
  function EmptyColumns(agentColumns: seq<string>): Board {
    map c | c in AllColumns(agentColumns) :: []
  }

  /** The column task `index` goes to. */
  function Target(agentColumns: seq<string>, index: nat): string {
    if |agentColumns| > 0 then agentColumns[index % |agentColumns|] else Unassigned
  }

  /** The copy of a task that is placed: assigned to its column, or to nobody when there
      are no agent columns. */
  function Placed(t: Todo, agentColumns: seq<string>, index: nat): Todo {
    t.(assignedTo := if |agentColumns| > 0 then Some(Target(agentColumns, index)) else None)
  }

  /** The board after placing the tasks one by one, task `i` at the end of column `i mod n`. */
  function Distributed(tasks: seq<Todo>, agentColumns: seq<string>): (r: Board)
    ensures forall c :: c in r <==> c == Unassigned || c in agentColumns
  {
    if |tasks| == 0 then EmptyColumns(agentColumns)
    else
      var n := |tasks| - 1;
      var d := Distributed(tasks[..n], agentColumns);
      var col := Target(agentColumns, n);
      d[col := Column(d, col) + [Placed(tasks[n], agentColumns, n)]]
  }

  /** `distributeTasksRoundRobin(tasks, agentColumns)`. */
  method DistributeTasksRoundRobin(tasks: seq<Todo>, agentColumns: seq<string>) returns (result: Board)
    ensures result == Distributed(tasks, agentColumns)
  {
    result := map[Unassigned := []];
    for i := 0 to |agentColumns|
      invariant result == map c | c in AllColumns(agentColumns[..i]) :: []
    {
      assert agentColumns[..i + 1] == agentColumns[..i] + [agentColumns[i]];
      result := result[agentColumns[i] := []];
    }
    assert agentColumns[..|agentColumns|] == agentColumns;
    for i := 0 to |tasks|
      invariant result == Distributed(tasks[..i], agentColumns)
    {
      assert tasks[..i + 1][..i] == tasks[..i] && tasks[..i + 1][i] == tasks[i];
      var columnId := Target(agentColumns, i);
      assert columnId in result && Column(result, columnId) == result[columnId];
      result := result[columnId := result[columnId] + [Placed(tasks[i], agentColumns, i)]];
    }
    assert tasks[..|tasks|] == tasks;
  }

  /** The initial layout assigns every task to the column it sits in. */
  lemma {:induction false} DistributedConsistent(tasks: seq<Todo>, agentColumns: seq<string>)
    requires Unassigned !in agentColumns
    ensures AssigneesConsistent(Distributed(tasks, agentColumns))
  {
    if |tasks| > 0 {
      DistributedConsistent(tasks[..|tasks| - 1], agentColumns);
    }
  }

  lemma {:induction false} FlattenEmpty(b: Board, cols: seq<string>)
    requires forall c :: c in cols ==> Column(b, c) == []
    ensures Flatten(b, cols) == []
  {
    if |cols| > 0 {
      FlattenEmpty(b, cols[..|cols| - 1]);
    }
  }

  /** The initial layout holds every task exactly once: the ids across all columns are
      the ids of the input. */
  lemma {:induction false} DistributedKeepsIds(tasks: seq<Todo>, agentColumns: seq<string>)
    requires ColumnsOk(agentColumns)
    ensures Ids(Flatten(Distributed(tasks, agentColumns), AllColumns(agentColumns))) == Ids(tasks)
  {
    var all := AllColumns(agentColumns);
    if |tasks| == 0 {
      EmptyColumnsIds(agentColumns);
    } else {
      var n := |tasks| - 1;
      DistributedKeepsIds(tasks[..n], agentColumns);
      AllColumnsDistinct(agentColumns);
      AppendToColumnIds(Distributed(tasks[..n], agentColumns), all, Target(agentColumns, n),
                        Placed(tasks[n], agentColumns, n));
      IdsSnoc(tasks);
    }
  }

  lemma EmptyColumnsIds(agentColumns: seq<string>)
    ensures Ids(Flatten(EmptyColumns(agentColumns), AllColumns(agentColumns))) == multiset{}
  {
    var e := EmptyColumns(agentColumns);
    var all := AllColumns(agentColumns);
    assert forall c :: c in all ==> Column(e, c) == [];
    FlattenEmpty(e, all);
    assert IdList([]) == [];
  }

  /** Appending a task to a listed column adds exactly its id to the board. */
  lemma AppendToColumnIds(b: Board, cols: seq<string>, col: string, t: Todo)
    requires Distinct(cols) && col in cols
    ensures Ids(Flatten(b[col := Column(b, col) + [t]], cols)) == Ids(Flatten(b, cols)) + multiset{t.id}
  {
    var placed := Column(b, col);
    FlattenUpdate(b, cols, col, placed + [t]);
    IdsAppend(placed, [t]);
    assert Ids([t]) == multiset{t.id};
    var after := Ids(Flatten(b[col := placed + [t]], cols));
    assert after + Ids(placed) == (Ids(Flatten(b, cols)) + multiset{t.id}) + Ids(placed);
    Cancel(after, Ids(Flatten(b, cols)) + multiset{t.id}, Ids(placed));
  }

  /** Round robin: task `i` ends up, assigned, in column `i mod n`. */
  lemma {:induction false} DistributedPlacement(tasks: seq<Todo>, agentColumns: seq<string>, i: nat)
    requires |agentColumns| > 0 && i < |tasks|
    ensures Placed(tasks[i], agentColumns, i) in Column(Distributed(tasks, agentColumns), agentColumns[i % |agentColumns|])
  {
    var n := |tasks| - 1;
    if i < n {
      DistributedPlacement(tasks[..n], agentColumns, i);
    }
  }

  /** The columns `agent-1` … `agent-n` the board starts with. */
  function InitialColumns(n: nat): (r: seq<string>)
    ensures |r| == n
  {
    seq(n, i requires 0 <= i => "agent-" + Strings.NatToString(i + 1))
  }

  // ---------------------------------------------------------------------------
  // Agent column names and `handleAddAgent`

  /** An agent column name as the board makes them: `agent-` and a number without leading zero. */
  predicate AgentName(c: string) {
    |c| > 6 && c[..6] == "agent-" && Strings.AllDigits(c[6..]) && c[6] != '0'
  }

  lemma NamedAgent(k: nat)
    requires k >= 1
    ensures AgentName("agent-" + Strings.NatToString(k))
  {
    var c := "agent-" + Strings.NatToString(k);
    assert c[6..] == Strings.NatToString(k);
  }

  lemma InitialColumnsOk(n: nat)
    ensures ColumnsOk(InitialColumns(n))
    ensures forall i :: 0 <= i < n ==> AgentName(InitialColumns(n)[i])
  {
    var cols := InitialColumns(n);
    forall i, j | 0 <= i < j < n ensures cols[i] != cols[j] {
      assert cols[i][6..] == Strings.NatToString(i + 1);
      assert cols[j][6..] == Strings.NatToString(j + 1);
      Strings.ParseShow(i + 1);
      Strings.ParseShow(j + 1);
    }
    forall i | 0 <= i < n ensures AgentName(cols[i]) && cols[i] != Unassigned {
      NamedAgent(i + 1);
      assert cols[i][0] == 'a' && Unassigned[0] == 'u';
    }
  }

  /** The board the component starts with: columns `agent-1` … `agent-n` and the tasks
      dealt round robin over them, each task held once and assigned to its column. */
  method InitialBoard(initialTasks: seq<Todo>, initialAgentCount: nat) returns (s: BoardState)
    ensures s.agentColumns == InitialColumns(initialAgentCount)
    ensures s.tasks == Distributed(initialTasks, s.agentColumns)
    ensures ColumnsOk(s.agentColumns) && AssigneesConsistent(s.tasks)
    ensures Ids(Flatten(s.tasks, AllColumns(s.agentColumns))) == Ids(initialTasks)
  {
    var initialColumns := InitialColumns(initialAgentCount);
    var tasksByColumn := DistributeTasksRoundRobin(initialTasks, initialColumns);
    InitialColumnsOk(initialAgentCount);
    DistributedConsistent(initialTasks, initialColumns);
    DistributedKeepsIds(initialTasks, initialColumns);
    s := BoardState(initialColumns, tasksByColumn);
  }

  /** How many decimal digits `s` starts with. */
  function LeadingDigits(s: string): (k: nat)
    ensures k <= |s| && Strings.AllDigits(s[..k])
    ensures k < |s| ==> !Strings.IsDigit(s[k])
  {
    if |s| == 0 || !Strings.IsDigit(s[0]) then 0
    else
      var k := LeadingDigits(s[1..]) + 1;
      assert s[..k] == [s[0]] + s[1..][..k - 1];
      k
  }

  /** `parseInt(s)` on decimal input: the value of the leading digits, or none for NaN. */
  function ParseInt(s: string): Option<nat> {
    var k := LeadingDigits(s);
    if k == 0 then None else Some(Strings.ParseDecimal(s[..k]))
  }

  /** `parseInt(c.split("-")[1] || "0")`: a missing or empty second piece reads as 0. */
  function ColumnNumber(c: string): Option<nat> {
    var parts := Strings.Split(c, '-');
    ParseInt(if |parts| > 1 && parts[1] != "" then parts[1] else "0")
  }

  /** The numbers `parseInt` reads from the columns' names, in column order. */
  function ColumnNumbers(cols: seq<string>): seq<Option<nat>> {
    seq(|cols|, i requires 0 <= i < |cols| => ColumnNumber(cols[i]))
  }

  /** `Math.max(...numbers) + 1`, where one NaN makes the result NaN. */
  function MaxPlusOne(nums: seq<Option<nat>>): (r: Option<nat>)
    requires |nums| > 0
    ensures r.Some? ==> r.value >= 1
    ensures r.Some? <==> forall i :: 0 <= i < |nums| ==> nums[i].Some?
    ensures r.Some? ==> forall i :: 0 <= i < |nums| ==> nums[i].value < r.value
    ensures r.Some? ==> exists i :: 0 <= i < |nums| && nums[i].value + 1 == r.value
  {
    var last := nums[|nums| - 1];
    if |nums| == 1 then (if last.None? then None else Some(last.value + 1))
    else
      var rest := MaxPlusOne(nums[..|nums| - 1]);
      assert forall i :: 0 <= i < |nums| - 1 ==> nums[..|nums| - 1][i] == nums[i];
      if rest.None? || last.None? then None
      else if last.value + 1 > rest.value then Some(last.value + 1)
      else rest
  }

  /** The name `handleAddAgent` gives the new column: one above the largest number in
      use, `agent-1` on an empty board, and `agent-NaN` when some number does not parse. */
  function NextColumnName(agentColumns: seq<string>): (r: string)
    ensures |r| > |"agent-"| && r[..|"agent-"|] == "agent-"
  {
    var next := if |agentColumns| > 0 then MaxPlusOne(ColumnNumbers(agentColumns)) else Some(1);
    var suffix := if next.Some? then Strings.NatToString(next.value) else "NaN";
    assert ("agent-" + suffix)[..|"agent-"|] == "agent-";
    "agent-" + suffix
  }

  /** `handleAddAgent`: nothing at `MAX_AGENTS` columns, else one new empty column at the end. */
  function AddAgent(s: BoardState): (r: BoardState)
    ensures |s.agentColumns| >= MaxAgents ==> r == s
    ensures |s.agentColumns| < MaxAgents ==>
      r.agentColumns == s.agentColumns + [NextColumnName(s.agentColumns)]
      && r.tasks == s.tasks[NextColumnName(s.agentColumns) := []]
  {
    if |s.agentColumns| >= MaxAgents then s
    else
      var newCol := NextColumnName(s.agentColumns);
      BoardState(s.agentColumns + [newCol], s.tasks[newCol := []])
  }

  /** The number `parseInt` reads from a well-formed agent column name is its number. */
  lemma AgentNameNumber(c: string)
    requires AgentName(c)
    ensures ColumnNumber(c) == Some(Strings.ParseDecimal(c[6..]))
  {
    var digits := c[6..];
    forall i | 0 <= i < |digits| ensures digits[i] != '-' {
      assert Strings.IsDigit(digits[i]);
    }
    assert c == "agent" + ['-'] + digits;
    Strings.SplitPrefix("agent", '-', digits);
    Strings.SplitFree(digits, '-');
    assert Strings.Split(c, '-') == ["agent", digits];
    assert LeadingDigits(digits) == |digits|;
    assert digits[..|digits|] == digits;
  }

  /** On a board whose columns all carry agent numbers, the added column is new and well
      formed, so the columns stay distinct. */
  lemma AddAgentFresh(s: BoardState)
    requires |s.agentColumns| < MaxAgents
    requires forall i :: 0 <= i < |s.agentColumns| ==> AgentName(s.agentColumns[i])
    ensures NextColumnName(s.agentColumns) !in s.agentColumns
    ensures AgentName(NextColumnName(s.agentColumns))
    ensures ColumnsOk(s.agentColumns) ==> ColumnsOk(AddAgent(s).agentColumns)
  {
    var cols := s.agentColumns;
    var next: nat := 1;
    if |cols| > 0 {
      forall i | 0 <= i < |cols| ensures ColumnNumbers(cols)[i].Some? {
        AgentNameNumber(cols[i]);
      }
      next := MaxPlusOne(ColumnNumbers(cols)).value;
    }
    var name := "agent-" + Strings.NatToString(next);
    assert NextColumnName(cols) == name;
    NumberedName(next);
    forall i | 0 <= i < |cols| ensures cols[i] != name {
      AgentNameNumber(cols[i]);
      assert ColumnNumbers(cols)[i] == ColumnNumber(cols[i]);
    }
    assert name[0] == 'a' && Unassigned[0] == 'u';
  }

  /** `agent-k` is a well-formed name whose number is `k`. */
  lemma NumberedName(k: nat)
    requires k >= 1
    ensures AgentName("agent-" + Strings.NatToString(k))
    ensures ColumnNumber("agent-" + Strings.NatToString(k)) == Some(k)
  {
    var name := "agent-" + Strings.NatToString(k);
    NamedAgent(k);
    AgentNameNumber(name);
    assert name[6..] == Strings.NatToString(k);
    Strings.ParseShow(k);
  }

  /** A column whose number does not parse turns the next name into `agent-NaN`. */
  lemma ForeignNameGivesNaN(cols: seq<string>, i: nat)
    requires i < |cols| && ColumnNumber(cols[i]).None?
    ensures NextColumnName(cols) == "agent-NaN"
  {
    assert ColumnNumbers(cols)[i].None?;
  }

  /** A name whose part after the dash starts with a non-digit has no number. */
  lemma ForeignNameHasNoNumber(suffix: string)
    requires suffix != [] && !Strings.IsDigit(suffix[0]) && '-' !in suffix
    ensures ColumnNumber("agent-" + suffix).None?
  {
    Strings.SplitPrefix("agent", '-', suffix);
    Strings.SplitFree(suffix, '-');
    assert "agent-" + suffix == "agent" + ['-'] + suffix;
  }

  // ---------------------------------------------------------------------------
  // Cross-column drag: the `handleDragOver` updater

  /** `findColumnForTask`: the first column, in the listed order, holding a task with the id. */
  function FindColumn(b: Board, cols: seq<string>, id: string): (r: Option<string>)
    ensures r.Some? ==> r.value in cols && FindIndex(Column(b, r.value), id) >= 0
    ensures r.None? ==> forall c :: c in cols ==> FindIndex(Column(b, c), id) == -1
  {
    if |cols| == 0 then None
    else if FindIndex(Column(b, cols[0]), id) >= 0 then Some(cols[0])
    else FindColumn(b, cols[1..], id)
  }

  /** The column under the pointer: the column of the hovered task, or the hovered column itself. */
  function OverColumn(b: Board, agentColumns: seq<string>, overId: string): Option<string> {
    var found := FindColumn(b, AllColumns(agentColumns), overId);
    if !Present(found) && overId in AllColumns(agentColumns) then Some(overId) else found
  }

  /** Whether a drag moves a task across columns. */
  predicate Crosses(b: Board, agentColumns: seq<string>, activeId: string, overId: string) {
    var activeCol := FindColumn(b, AllColumns(agentColumns), activeId);
    var overCol := OverColumn(b, agentColumns, overId);
    Present(activeCol) && Present(overCol) && activeCol.value != overCol.value
  }

  /** The `handleDragOver` updater: the dragged task leaves its column and enters the
      hovered one, before the hovered task or at the end, taking that column as assignee. */
  function DragOver(b: Board, agentColumns: seq<string>, activeId: string, overId: string): Board {
    if !Crosses(b, agentColumns, activeId, overId) then b
    else MoveAcross(b, FindColumn(b, AllColumns(agentColumns), activeId).value,
                    OverColumn(b, agentColumns, overId).value, activeId, overId)
  }

  /** The move itself, once the source and destination columns are known. */
  function MoveAcross(b: Board, activeCol: string, overCol: string, activeId: string, overId: string): Board {
    var sourceTasks := Column(b, activeCol);
    var destTasks := Column(b, overCol);
    var activeIndex := FindIndex(sourceTasks, activeId);
    if activeIndex == -1 then b
    else
      var updatedTask := sourceTasks[activeIndex].(assignedTo := AssigneeFor(overCol));
      var overIndex := FindIndex(destTasks, overId);
      var newDest := if overIndex >= 0 then Insert(destTasks, overIndex, updatedTask) else destTasks + [updatedTask];
      b[activeCol := Remove(sourceTasks, activeIndex)][overCol := newDest]
  }

  /** A drag that does not cross columns leaves the board alone, and one that does changes it. */
  lemma DragOverChangesIff(b: Board, agentColumns: seq<string>, activeId: string, overId: string)
    ensures DragOver(b, agentColumns, activeId, overId) == b <==> !Crosses(b, agentColumns, activeId, overId)
  {
    if Crosses(b, agentColumns, activeId, overId) {
      var activeCol := FindColumn(b, AllColumns(agentColumns), activeId).value;
      var r: Board := DragOver(b, agentColumns, activeId, overId);
      assert |Column(r, activeCol)| == |Column(b, activeCol)| - 1;
    }
  }

  /** A crossing drag moves exactly the dragged task: the source loses it, the destination
      gains it with the new assignee, right before the hovered task or at the end, and
      every other column is untouched. */
  lemma DragOverMovesOne(b: Board, agentColumns: seq<string>, activeId: string, overId: string)
    requires Crosses(b, agentColumns, activeId, overId)
    ensures var activeCol := FindColumn(b, AllColumns(agentColumns), activeId).value;
      var overCol := OverColumn(b, agentColumns, overId).value;
      var r: Board := DragOver(b, agentColumns, activeId, overId);
      var ai := FindIndex(Column(b, activeCol), activeId);
      var moved := Column(b, activeCol)[ai].(assignedTo := AssigneeFor(overCol));
      var oi := FindIndex(Column(b, overCol), overId);
      && r[activeCol] == Remove(Column(b, activeCol), ai)
      && (oi >= 0 ==> r[overCol][oi] == moved && r[overCol][oi + 1].id == overId)
      && (oi == -1 ==> r[overCol] == Column(b, overCol) + [moved])
      && (forall c :: c != activeCol && c != overCol ==> Column(r, c) == Column(b, c))
  {
    var activeCol := FindColumn(b, AllColumns(agentColumns), activeId).value;
    var overCol := OverColumn(b, agentColumns, overId).value;
    assert DragOver(b, agentColumns, activeId, overId) == MoveAcross(b, activeCol, overCol, activeId, overId);
    MoveAcrossShape(b, activeCol, overCol, activeId, overId);
  }

  /** The move once both columns are known: see `DragOverMovesOne`. */
  lemma MoveAcrossShape(b: Board, activeCol: string, overCol: string, activeId: string, overId: string)
    requires activeCol != overCol && FindIndex(Column(b, activeCol), activeId) >= 0
    ensures var r: Board := MoveAcross(b, activeCol, overCol, activeId, overId);
      var ai := FindIndex(Column(b, activeCol), activeId);
      var moved := Column(b, activeCol)[ai].(assignedTo := AssigneeFor(overCol));
      var oi := FindIndex(Column(b, overCol), overId);
      && r[activeCol] == Remove(Column(b, activeCol), ai)
      && (oi >= 0 ==> r[overCol][oi] == moved && r[overCol][oi + 1].id == overId)
      && (oi == -1 ==> r[overCol] == Column(b, overCol) + [moved])
      && (forall c :: c != activeCol && c != overCol ==> Column(r, c) == Column(b, c))
  {
    var source, dest := Column(b, activeCol), Column(b, overCol);
    var ai, oi := FindIndex(source, activeId), FindIndex(dest, overId);
    var moved := source[ai].(assignedTo := AssigneeFor(overCol));
    var newDest := if oi >= 0 then Insert(dest, oi, moved) else dest + [moved];
    assert MoveAcross(b, activeCol, overCol, activeId, overId) == b[activeCol := Remove(source, ai)][overCol := newDest];
    if oi >= 0 {
      InsertKeepsOrder(dest, oi, moved);
      assert newDest[oi + 1] == dest[oi];
    }
  }

  /** Moving one task from one listed column to another keeps the ids across the listed columns. */
  lemma MoveAcrossIds(b: Board, cols: seq<string>, from: string, to: string,
                      newSource: seq<Todo>, newDest: seq<Todo>, id: string)
    requires Distinct(cols) && from in cols && to in cols && from != to
    requires Ids(newSource) + multiset{id} == Ids(Column(b, from))
    requires Ids(newDest) == Ids(Column(b, to)) + multiset{id}
    ensures Ids(Flatten(b[from := newSource][to := newDest], cols)) == Ids(Flatten(b, cols))
  {
    var b1 := b[from := newSource];
    var f0, f1, f2 := Ids(Flatten(b, cols)), Ids(Flatten(b1, cols)), Ids(Flatten(b1[to := newDest], cols));
    FlattenUpdate(b, cols, from, newSource);
    assert f1 + Ids(newSource) + multiset{id} == f0 + Ids(newSource);
    Cancel(f1 + multiset{id}, f0, Ids(newSource));
    FlattenUpdate(b1, cols, to, newDest);
    assert Column(b1, to) == Column(b, to);
    assert f2 + Ids(Column(b, to)) == f0 + Ids(Column(b, to));
    Cancel(f2, f0, Ids(Column(b, to)));
  }

  /** A move between two listed columns keeps the ids across the listed columns. */
  lemma MoveAcrossKeepsIds(b: Board, cols: seq<string>, activeCol: string, overCol: string, activeId: string, overId: string)
    requires Distinct(cols) && activeCol in cols && overCol in cols && activeCol != overCol
    ensures Ids(Flatten(MoveAcross(b, activeCol, overCol, activeId, overId), cols)) == Ids(Flatten(b, cols))
  {
    var source := Column(b, activeCol);
    var dest := Column(b, overCol);
    var ai := FindIndex(source, activeId);
    if ai >= 0 {
      var moved := source[ai].(assignedTo := AssigneeFor(overCol));
      var oi := FindIndex(dest, overId);
      var newDest := if oi >= 0 then Insert(dest, oi, moved) else dest + [moved];
      RemoveIds(source, ai);
      if oi >= 0 {
        InsertIds(dest, oi, moved);
      } else {
        IdsAppend(dest, [moved]);
        assert Ids([moved]) == multiset{moved.id};
      }
      MoveAcrossIds(b, cols, activeCol, overCol, Remove(source, ai), newDest, moved.id);
    }
  }

  /** A drag keeps every task on the board: the ids across all columns are unchanged. */
  lemma DragOverKeepsIds(b: Board, agentColumns: seq<string>, activeId: string, overId: string)
    requires ColumnsOk(agentColumns)
    ensures var all := AllColumns(agentColumns);
      Ids(Flatten(DragOver(b, agentColumns, activeId, overId), all)) == Ids(Flatten(b, all))
  {
    if Crosses(b, agentColumns, activeId, overId) {
      var all := AllColumns(agentColumns);
      var activeCol := FindColumn(b, all, activeId).value;
      var overCol := OverColumn(b, agentColumns, overId).value;
      assert overCol in all;
      AllColumnsDistinct(agentColumns);
      MoveAcrossKeepsIds(b, all, activeCol, overCol, activeId, overId);
    }
  }

  /** A move keeps every task's assignee equal to its column. */
  lemma MoveAcrossConsistent(b: Board, activeCol: string, overCol: string, activeId: string, overId: string)
    requires AssigneesConsistent(b) && activeCol != overCol
    ensures AssigneesConsistent(MoveAcross(b, activeCol, overCol, activeId, overId))
  {
    var source := Column(b, activeCol);
    var dest := Column(b, overCol);
    var ai := FindIndex(source, activeId);
    if ai >= 0 {
      var moved := source[ai].(assignedTo := AssigneeFor(overCol));
      var oi := FindIndex(dest, overId);
      var newDest := if oi >= 0 then Insert(dest, oi, moved) else dest + [moved];
      var r: Board := MoveAcross(b, activeCol, overCol, activeId, overId);
      forall c: string, i: int | c in r && 0 <= i < |r[c]| ensures r[c][i].assignedTo == AssigneeFor(c) {
        if c == overCol {
          if oi >= 0 {
            assert newDest[i] == if i < oi then dest[i] else if i == oi then moved else dest[i - 1];
          } else {
            assert newDest[i] == if i < |dest| then dest[i] else moved;
          }
        } else if c == activeCol {
          assert r[c][i] == if i < ai then source[i] else source[i + 1];
        }
      }
    }
  }

  /** A drag keeps every task's assignee equal to its column. */
  lemma DragOverConsistent(b: Board, agentColumns: seq<string>, activeId: string, overId: string)
    requires AssigneesConsistent(b)
    ensures AssigneesConsistent(DragOver(b, agentColumns, activeId, overId))
  {
    if Crosses(b, agentColumns, activeId, overId) {
      MoveAcrossConsistent(b, FindColumn(b, AllColumns(agentColumns), activeId).value,
                           OverColumn(b, agentColumns, overId).value, activeId, overId);
    }
  }

  // ---------------------------------------------------------------------------
  // Same-column drop: the `handleDragEnd` updater

  /** The `handleDragEnd` updater: a drop on a task of the same column moves the dragged
      task to the hovered task's position; everything else is left to `handleDragOver`. */
  function DragEnd(b: Board, agentColumns: seq<string>, activeId: string, overId: string): Board {
    var activeCol := FindColumn(b, AllColumns(agentColumns), activeId);
    var overCol := OverColumn(b, agentColumns, overId);
    if !Present(activeCol) || !Present(overCol) || activeCol.value != overCol.value then b
    else
      var tasks := Column(b, activeCol.value);
      var oldIndex := FindIndex(tasks, activeId);
      var newIndex := FindIndex(tasks, overId);
      if oldIndex == -1 || newIndex == -1 || oldIndex == newIndex then b
      else b[activeCol.value := ArrayMove(tasks, oldIndex, newIndex)]
  }

  /** A same-column drop only reorders that column: its tasks are the same, the dragged
      task now sits where the hovered one was, and no other column changes. */
  lemma DragEndReorders(b: Board, agentColumns: seq<string>, activeId: string, overId: string)
    ensures var r: Board := DragEnd(b, agentColumns, activeId, overId);
      forall c :: multiset(Column(r, c)) == multiset(Column(b, c))
    ensures var r: Board := DragEnd(b, agentColumns, activeId, overId);
      r != b ==> exists c :: (c in b && (forall d :: d != c ==> Column(r, d) == Column(b, d))
                              && r[c][FindIndex(b[c], overId)].id == activeId)
  {
    var r: Board := DragEnd(b, agentColumns, activeId, overId);
    if r != b {
      var c := FindColumn(b, AllColumns(agentColumns), activeId).value;
      var tasks := Column(b, c);
      var from, to := FindIndex(tasks, activeId), FindIndex(tasks, overId);
      assert c in b && tasks == b[c];
      assert from >= 0 && to >= 0;
      assert r == b[c := ArrayMove(tasks, from, to)];
      ArrayMovePermutes(tasks, from, to);
      assert r[c][to].id == activeId;
      forall d ensures multiset(Column(r, d)) == multiset(Column(b, d)) {
      }
    }
  }

  /** A reorder keeps assignees matching their column. */
  lemma DragEndConsistent(b: Board, agentColumns: seq<string>, activeId: string, overId: string)
    requires AssigneesConsistent(b)
    ensures AssigneesConsistent(DragEnd(b, agentColumns, activeId, overId))
  {
    var r: Board := DragEnd(b, agentColumns, activeId, overId);
    if r != b {
      var c := FindColumn(b, AllColumns(agentColumns), activeId).value;
      var tasks := Column(b, c);
      var from, to := FindIndex(tasks, activeId), FindIndex(tasks, overId);
      ArrayMovePermutes(tasks, from, to);
      forall i: int | 0 <= i < |r[c]| ensures r[c][i].assignedTo == AssigneeFor(c) {
        assert r[c][i] in multiset(tasks);
      }
    }
  }

  // ---------------------------------------------------------------------------
  // Editing, adding and removing tasks

  /** `handleUpdateTask`: every task with the id gets the new description. */
  function UpdateTask(b: Board, taskId: string, description: string): (r: Board)
    ensures r.Keys == b.Keys
    ensures forall c :: c in b ==> |r[c]| == |b[c]|
    ensures forall c, i :: c in b && 0 <= i < |b[c]| ==>
      r[c][i].(description := b[c][i].description) == b[c][i]
      && r[c][i].description == (if b[c][i].id == taskId then description else b[c][i].description)
  {
    map c | c in b :: seq(|b[c]|, i requires 0 <= i < |b[c]| =>
      if b[c][i].id == taskId then b[c][i].(description := description) else b[c][i])
  }

  /** The tasks of a list without those carrying the id (`filter`). */
  function WithoutId(ts: seq<Todo>, id: string): (r: seq<Todo>)
    ensures |r| <= |ts|
  {
    if |ts| == 0 then []
    else
      var n := |ts| - 1;
      var rest := WithoutId(ts[..n], id);
      if ts[n].id == id then rest else rest + [ts[n]]
  }

  /** The filter keeps exactly the tasks with another id. */
  lemma {:induction false} WithoutIdMembers(ts: seq<Todo>, id: string)
    ensures forall t :: t in WithoutId(ts, id) <==> t in ts && t.id != id
  {
    if |ts| > 0 {
      var n := |ts| - 1;
      WithoutIdMembers(ts[..n], id);
      assert ts == ts[..n] + [ts[n]];
    }
  }

  /** The same for every column of a board. */
  lemma WithoutIdMembersAll(b: Board, taskId: string)
    ensures forall c :: c in b ==> forall t :: t in WithoutId(b[c], taskId) <==> t in b[c] && t.id != taskId
  {
    forall c | c in b ensures forall t :: t in WithoutId(b[c], taskId) <==> t in b[c] && t.id != taskId {
      WithoutIdMembers(b[c], taskId);
    }
  }

  /** Filtering out an id drops every copy of it and keeps every other id as often as before. */
  lemma {:induction false} WithoutIdIds(ts: seq<Todo>, id: string)
    ensures Ids(WithoutId(ts, id)) == Ids(ts)[id := 0]
  {
    if |ts| > 0 {
      var n := |ts| - 1;
      var last := ts[n];
      var rest := WithoutId(ts[..n], id);
      WithoutIdIds(ts[..n], id);
      assert ts == ts[..n] + [last];
      IdsAppend(ts[..n], [last]);
      assert Ids([last]) == multiset{last.id};
      if last.id != id {
        IdsAppend(rest, [last]);
      }
      var m := Ids(ts[..n]);
      assert Ids(ts) == m + multiset{last.id};
      forall x ensures Ids(WithoutId(ts, id))[x] == Ids(ts)[id := 0][x] {
      }
    }
  }

  /** The filter keeps the order: filtering a concatenation filters each part. */
  lemma {:induction false} WithoutIdAppend(xs: seq<Todo>, ys: seq<Todo>, id: string)
    ensures WithoutId(xs + ys, id) == WithoutId(xs, id) + WithoutId(ys, id)
  {
    if |ys| == 0 {
      assert xs + ys == xs;
    } else {
      var n := |ys| - 1;
      var zs := xs + ys;
      var tail := if ys[n].id == id then [] else [ys[n]];
      assert zs[..|zs| - 1] == xs + ys[..n];
      assert zs[|zs| - 1] == ys[n];
      assert WithoutId(zs, id) == WithoutId(xs + ys[..n], id) + tail;
      assert WithoutId(ys, id) == WithoutId(ys[..n], id) + tail;
      WithoutIdAppend(xs, ys[..n], id);
    }
  }

  /** A single task survives the filter exactly when it has another id. */
  lemma WithoutIdSingle(t: Todo, id: string)
    ensures WithoutId([t], id) == if t.id == id then [] else [t]
  {
    assert [t][..0] == [];
  }

  /** A list without the id is left as it is. */
  lemma {:induction false} WithoutIdAbsent(ts: seq<Todo>, id: string)
    requires forall i :: 0 <= i < |ts| ==> ts[i].id != id
    ensures WithoutId(ts, id) == ts
  {
    if |ts| > 0 {
      var n := |ts| - 1;
      WithoutIdAbsent(ts[..n], id);
      assert ts[..n] + [ts[n]] == ts;
    }
  }

  /** `handleRemoveTask`: the tasks with the id disappear from every column, and only they. */
  function RemoveTask(b: Board, taskId: string): (r: Board)
    ensures r.Keys == b.Keys
    ensures forall c :: c in b ==> forall t :: t in r[c] <==> t in b[c] && t.id != taskId
  {
    WithoutIdMembersAll(b, taskId);
    map c | c in b :: WithoutId(b[c], taskId)
  }

  /** Removal keeps each column's order: on a column split in two, each part is
      filtered on its own; a column without the id is left as it is. */
  lemma RemoveTaskKeepsOrder(b: Board, taskId: string, c: string, xs: seq<Todo>, ys: seq<Todo>)
    requires c in b && b[c] == xs + ys
    ensures RemoveTask(b, taskId)[c] == WithoutId(xs, taskId) + WithoutId(ys, taskId)
    ensures (forall i :: 0 <= i < |b[c]| ==> b[c][i].id != taskId) ==> RemoveTask(b, taskId)[c] == b[c]
  {
    WithoutIdAppend(xs, ys, taskId);
    if forall i :: 0 <= i < |b[c]| ==> b[c][i].id != taskId {
      WithoutIdAbsent(b[c], taskId);
    }
  }

  /** In every column, removal drops all copies of the id and keeps every other id as
      often as before. */
  lemma RemoveTaskIds(b: Board, taskId: string)
    ensures forall c :: c in b ==> Ids(RemoveTask(b, taskId)[c]) == Ids(b[c])[taskId := 0]
  {
    forall c | c in b ensures Ids(RemoveTask(b, taskId)[c]) == Ids(b[c])[taskId := 0] {
      WithoutIdIds(b[c], taskId);
    }
  }

  /** The task `handleAddTask` creates; `id` stands for the timestamp-and-random id. */
  function NewTask(columnId: string, id: string): Todo {
    Todo(id, "", Pending, AssigneeFor(columnId), None)
  }

  /** `handleAddTask`: one empty pending task at the end of the column. */
  function AddTask(b: Board, columnId: string, id: string): (r: Board)
    ensures columnId in r && r[columnId] == Column(b, columnId) + [NewTask(columnId, id)]
    ensures forall c :: c != columnId ==> Column(r, c) == Column(b, c)
  {
    b[columnId := Column(b, columnId) + [NewTask(columnId, id)]]
  }

  /** Editing keeps every task in place, and assignees with it. */
  lemma UpdateTaskKeeps(b: Board, cols: seq<string>, taskId: string, description: string)
    ensures AssigneesConsistent(b) ==> AssigneesConsistent(UpdateTask(b, taskId, description))
    ensures Ids(Flatten(UpdateTask(b, taskId, description), cols)) == Ids(Flatten(b, cols))
  {
    var r := UpdateTask(b, taskId, description);
    forall c ensures Ids(Column(r, c)) == Ids(Column(b, c)) {
      if c in b {
        SameIds(r[c], b[c]);
      }
    }
    FlattenIds(r, b, cols);
  }

  lemma SameIds(xs: seq<Todo>, ys: seq<Todo>)
    requires |xs| == |ys| && forall i :: 0 <= i < |xs| ==> xs[i].id == ys[i].id
    ensures Ids(xs) == Ids(ys)
  {
    assert IdList(xs) == IdList(ys);
  }

  lemma {:induction false} FlattenIds(b1: Board, b2: Board, cols: seq<string>)
    requires forall c :: Ids(Column(b1, c)) == Ids(Column(b2, c))
    ensures Ids(Flatten(b1, cols)) == Ids(Flatten(b2, cols))
  {
    if |cols| > 0 {
      var n := |cols| - 1;
      FlattenIds(b1, b2, cols[..n]);
      IdsAppend(Flatten(b1, cols[..n]), Column(b1, cols[n]));
      IdsAppend(Flatten(b2, cols[..n]), Column(b2, cols[n]));
    }
  }

  /** Removing a task keeps the remaining assignees right. */
  lemma RemoveTaskConsistent(b: Board, taskId: string)
    requires AssigneesConsistent(b)
    ensures AssigneesConsistent(RemoveTask(b, taskId))
  {
    var r: Board := RemoveTask(b, taskId);
    forall c: string, i: int | c in r && 0 <= i < |r[c]| ensures r[c][i].assignedTo == AssigneeFor(c) {
      assert r[c][i] in b[c];
    }
  }

  /** An added task takes its column as assignee, and it is the only new id on the board. */
  lemma AddTaskKeeps(b: Board, agentColumns: seq<string>, columnId: string, id: string)
    requires ColumnsOk(agentColumns) && columnId in AllColumns(agentColumns)
    ensures AssigneesConsistent(b) ==> AssigneesConsistent(AddTask(b, columnId, id))
    ensures var all := AllColumns(agentColumns);
      Ids(Flatten(AddTask(b, columnId, id), all)) == Ids(Flatten(b, all)) + multiset{id}
  {
    AllColumnsDistinct(agentColumns);
    AppendToColumnIds(b, AllColumns(agentColumns), columnId, NewTask(columnId, id));
    if AssigneesConsistent(b) {
      var r: Board := AddTask(b, columnId, id);
      forall c: string, i: int | c in r && 0 <= i < |r[c]| ensures r[c][i].assignedTo == AssigneeFor(c) {
        if c == columnId && i == |Column(b, columnId)| {
          assert r[c][i] == NewTask(columnId, id);
        }
      }
    }
  }

  // ---------------------------------------------------------------------------
  // `handleRemoveAgent`

  /** The columns other than `col`, in order (`filter`). */
  function Without(cols: seq<string>, col: string): (r: seq<string>)
    ensures forall c :: c in r <==> c in cols && c != col
  {
    if |cols| == 0 then []
    else
      var rest := Without(cols[..|cols| - 1], col);
      var last := cols[|cols| - 1];
      if last == col then rest else rest + [last]
  }

  /** The column filter keeps the order: filtering a concatenation filters each part. */
  lemma {:induction false} WithoutAppend(xs: seq<string>, ys: seq<string>, col: string)
    ensures Without(xs + ys, col) == Without(xs, col) + Without(ys, col)
  {
    if |ys| == 0 {
      assert xs + ys == xs;
    } else {
      var n := |ys| - 1;
      WithoutAppend(xs, ys[..n], col);
      assert (xs + ys)[..|xs + ys| - 1] == xs + ys[..n];
      assert (xs + ys)[|xs + ys| - 1] == ys[n];
    }
  }

  /** A single column survives exactly when it is another one. */
  lemma WithoutSingle(c: string, col: string)
    ensures Without([c], col) == if c == col then [] else [c]
  {
    assert [c][..0] == [];
  }

  lemma {:induction false} WithoutAbsent(cols: seq<string>, col: string)
    requires col !in cols
    ensures Without(cols, col) == cols
  {
    if |cols| > 0 {
      WithoutAbsent(cols[..|cols| - 1], col);
      assert cols == cols[..|cols| - 1] + [cols[|cols| - 1]];
    }
  }

  /** The tasks of a removed column, now unassigned. */
  function Orphaned(ts: seq<Todo>): (r: seq<Todo>)
    ensures |r| == |ts|
    ensures forall i :: 0 <= i < |ts| ==> r[i] == ts[i].(assignedTo := None)
  {
    seq(|ts|, i requires 0 <= i < |ts| => ts[i].(assignedTo := None))
  }

  /** `handleRemoveAgent`: the column goes, and its tasks, unassigned, join the end of the
      unassigned column. */
  function RemoveAgent(s: BoardState, columnId: string): BoardState {
    var orphanedTasks := Orphaned(Column(s.tasks, columnId));
    var updated := s.tasks - {columnId};
    BoardState(Without(s.agentColumns, columnId),
               updated[Unassigned := Column(updated, Unassigned) + orphanedTasks])
  }

  lemma {:induction false} FlattenWithout(b: Board, cols: seq<string>, col: string)
    requires Distinct(cols) && col in cols
    ensures Ids(Flatten(b, cols)) == Ids(Flatten(b, Without(cols, col))) + Ids(Column(b, col))
  {
    var n := |cols| - 1;
    var p := cols[..n];
    var c := cols[n];
    assert Distinct(p);
    IdsAppend(Flatten(b, p), Column(b, c));
    if c == col {
      assert col !in p;
      WithoutAbsent(p, col);
    } else {
      FlattenWithout(b, p, col);
      var w := Without(p, col);
      assert (w + [c])[..|w|] == w;
      IdsAppend(Flatten(b, w), Column(b, c));
      var fw, k, x := Ids(Flatten(b, w)), Ids(Column(b, col)), Ids(Column(b, c));
      assert Ids(Flatten(b, cols)) == fw + k + x;
      assert Ids(Flatten(b, Without(cols, col))) == fw + x;
    }
  }

  /** Removing an agent column loses no task: the ids across the remaining columns are
      the ids across the old ones. */
  lemma RemoveAgentKeepsIds(s: BoardState, columnId: string)
    requires ColumnsOk(s.agentColumns) && columnId in s.agentColumns
    ensures var r := RemoveAgent(s, columnId);
      Ids(Flatten(r.tasks, AllColumns(r.agentColumns))) == Ids(Flatten(s.tasks, AllColumns(s.agentColumns)))
  {
    var r := RemoveAgent(s, columnId);
    var b := s.tasks;
    var rest := Without(s.agentColumns, columnId);
    var orphans := Orphaned(Column(b, columnId));
    var front := Column(b, Unassigned);
    RemoveAgentFlattened(s, columnId);
    FlattenCons(b, Unassigned, s.agentColumns);
    var kept, gone := Ids(Flatten(b, rest)), Ids(Column(b, columnId));
    assert Ids(Flatten(r.tasks, AllColumns(rest))) == Ids(front) + gone + kept by {
      SameIds(orphans, Column(b, columnId));
      IdsAppend(front, orphans);
      IdsAppend(front + orphans, Flatten(b, rest));
    }
    assert Ids(Flatten(b, AllColumns(s.agentColumns))) == Ids(front) + (kept + gone) by {
      FlattenWithout(b, s.agentColumns, columnId);
      IdsAppend(front, Flatten(b, s.agentColumns));
    }
  }

  /** The board after removing a column, flattened: the unassigned tasks, the orphans, then the remaining columns. */
  lemma RemoveAgentFlattened(s: BoardState, columnId: string)
    requires ColumnsOk(s.agentColumns) && columnId in s.agentColumns
    ensures var r := RemoveAgent(s, columnId);
      Flatten(r.tasks, AllColumns(r.agentColumns))
      == (Column(s.tasks, Unassigned) + Orphaned(Column(s.tasks, columnId))) + Flatten(s.tasks, Without(s.agentColumns, columnId))
  {
    var r := RemoveAgent(s, columnId);
    var rest := Without(s.agentColumns, columnId);
    FlattenCons(r.tasks, Unassigned, rest);
    FlattenAgree(r.tasks, s.tasks, rest);
  }

  /** Removing an agent column keeps assignees matching columns. */
  lemma RemoveAgentConsistent(s: BoardState, columnId: string)
    requires AssigneesConsistent(s.tasks)
    ensures AssigneesConsistent(RemoveAgent(s, columnId).tasks)
  {
    var r: Board := RemoveAgent(s, columnId).tasks;
    var updated := s.tasks - {columnId};
    var front := Column(updated, Unassigned);
    var orphans := Orphaned(Column(s.tasks, columnId));
    forall c: string, i: int | c in r && 0 <= i < |r[c]| ensures r[c][i].assignedTo == AssigneeFor(c) {
      if c == Unassigned {
        assert r[c][i] == if i < |front| then front[i] else orphans[i - |front|];
      }
    }
  }

  // ---------------------------------------------------------------------------
  // Approval and the task counter

  /** A task whose description is not blank: not only whitespace. */
  predicate NotBlank(t: Todo) {
    !Strings.AllWhitespace(t.description)
  }

  /** The filter of the source, `description.trim()` non-empty, is exactly `NotBlank`. */
  lemma NotBlankIff(t: Todo)
    ensures NotBlank(t) <==> Strings.Trim(t.description) != ""
  {
    Strings.TrimEmptyIff(t.description);
  }

  /** The non-blank tasks, in order (`filter`). */
  function ValidTasks(ts: seq<Todo>): (r: seq<Todo>)
    ensures |r| <= |ts|
  {
    if |ts| == 0 then []
    else
      var rest := ValidTasks(ts[..|ts| - 1]);
      var last := ts[|ts| - 1];
      if NotBlank(last) then rest + [last] else rest
  }

  /** The filter keeps exactly the non-blank tasks. */
  lemma {:induction false} ValidTasksMembers(ts: seq<Todo>)
    ensures forall t :: t in ValidTasks(ts) <==> t in ts && NotBlank(t)
  {
    if |ts| > 0 {
      var n := |ts| - 1;
      ValidTasksMembers(ts[..n]);
      assert ts == ts[..n] + [ts[n]];
    }
  }

  lemma {:induction false} ValidTasksAppend(a: seq<Todo>, b: seq<Todo>)
    ensures ValidTasks(a + b) == ValidTasks(a) + ValidTasks(b)
  {
    if |b| == 0 {
      assert a + b == a;
    } else {
      ValidTasksAppend(a, b[..|b| - 1]);
      assert (a + b)[..|a + b| - 1] == a + b[..|b| - 1];
    }
  }

  /** The unassigned tasks dealt round-robin over the agent columns, blank ones included;
      kept as they are when there are no agent columns. */
  function RoundRobinAssigned(ts: seq<Todo>, agentColumns: seq<string>): (r: seq<Todo>)
    ensures |r| == |ts|
  {
    seq(|ts|, i requires 0 <= i < |ts| =>
      if |agentColumns| > 0 then ts[i].(assignedTo := Some(agentColumns[i % |agentColumns|])) else ts[i])
  }

  /** Dealing changes only assignees, and with an agent column every dealt task gets one of them. */
  lemma RoundRobinAssignees(ts: seq<Todo>, agentColumns: seq<string>)
    ensures var r := RoundRobinAssigned(ts, agentColumns);
      forall i :: 0 <= i < |ts| ==> r[i].(assignedTo := ts[i].assignedTo) == ts[i]
    ensures var r := RoundRobinAssigned(ts, agentColumns);
      |agentColumns| > 0 ==> forall i :: 0 <= i < |ts| ==> r[i].assignedTo.Some? && r[i].assignedTo.value in agentColumns
  {
  }

  /** What `handleApprove` hands on: the agent columns' tasks in column order, then the
      dealt unassigned tasks, with blank tasks dropped at the very end. */
  function ApprovedTasks(b: Board, agentColumns: seq<string>): seq<Todo> {
    ValidTasks(Flatten(b, agentColumns) + RoundRobinAssigned(Column(b, Unassigned), agentColumns))
  }

  /** `handleApprove`: the approved tasks and the number of agent columns. */
  method Approve(s: BoardState) returns (tasks: seq<Todo>, agentCount: nat)
    ensures tasks == ApprovedTasks(s.tasks, s.agentColumns)
    ensures agentCount == |s.agentColumns|
  {
    var cols := s.agentColumns;
    var allTasks: seq<Todo> := [];
    var unassigned := Column(s.tasks, Unassigned);
    for i := 0 to |cols|
      invariant allTasks == Flatten(s.tasks, cols[..i])
    {
      assert cols[..i + 1][..i] == cols[..i];
      allTasks := allTasks + Column(s.tasks, cols[i]);
    }
    assert cols[..|cols|] == cols;
    ghost var agentTasks := allTasks;
    for index := 0 to |unassigned|
      invariant allTasks == agentTasks + RoundRobinAssigned(unassigned[..index], cols)
    {
      var task := unassigned[index];
      if |cols| > 0 {
        var targetCol := cols[index % |cols|];
        allTasks := allTasks + [task.(assignedTo := Some(targetCol))];
      } else {
        allTasks := allTasks + [task];
      }
      assert RoundRobinAssigned(unassigned[..index + 1], cols)
        == RoundRobinAssigned(unassigned[..index], cols) + [RoundRobinAssigned(unassigned, cols)[index]];
    }
    assert unassigned[..|unassigned|] == unassigned;
    tasks := ValidTasks(allTasks);
    agentCount := |cols|;
  }

  /** Every approved task has a description. */
  lemma ApprovedNotBlank(b: Board, agentColumns: seq<string>)
    ensures forall t :: t in ApprovedTasks(b, agentColumns) ==> NotBlank(t)
  {
    ValidTasksMembers(Flatten(b, agentColumns) + RoundRobinAssigned(Column(b, Unassigned), agentColumns));
  }

  /** With at least one agent column on a consistent board, every approved task is
      assigned to one of the agent columns. */
  lemma ApprovedAllAssigned(b: Board, agentColumns: seq<string>)
    requires |agentColumns| > 0 && Unassigned !in agentColumns && AssigneesConsistent(b)
    ensures forall t :: t in ApprovedTasks(b, agentColumns) ==>
      t.assignedTo.Some? && t.assignedTo.value in agentColumns
  {
    var flat := Flatten(b, agentColumns);
    var dealt := RoundRobinAssigned(Column(b, Unassigned), agentColumns);
    ValidTasksMembers(flat + dealt);
    forall t | t in ApprovedTasks(b, agentColumns)
      ensures t.assignedTo.Some? && t.assignedTo.value in agentColumns
    {
      assert t in flat + dealt;
      if t in flat {
        FlattenMember(b, agentColumns, t);
        var c :| c in agentColumns && t in Column(b, c);
        var i :| 0 <= i < |b[c]| && b[c][i] == t;
      } else {
        var i :| 0 <= i < |dealt| && dealt[i] == t;
        assert agentColumns[i % |agentColumns|] in agentColumns;
      }
    }
  }

  /** A blank unassigned task is dropped but still takes its round-robin turn: with two
      agent columns, the non-blank second task goes to the second column. */
  lemma ApproveBlankKeepsSlot(blank: Todo, task: Todo)
    requires blank.description == "" && task.description == "x"
    ensures ApprovedTasks(map[Unassigned := [blank, task]], ["agent-1", "agent-2"])
      == [task.(assignedTo := Some("agent-2"))]
  {
    var cols := ["agent-1", "agent-2"];
    var b := map[Unassigned := [blank, task]];
    assert Flatten(b, cols) == [] by {
      FlattenEmpty(b, cols);
    }
    var dealt := RoundRobinAssigned([blank, task], cols);
    assert dealt == [blank.(assignedTo := Some("agent-1")), task.(assignedTo := Some("agent-2"))];
    assert [] + dealt == dealt;
    assert !NotBlank(dealt[0]);
    assert NotBlank(dealt[1]) by {
      assert !Strings.IsWhitespace(dealt[1].description[0]);
    }
    assert dealt[..1][..0] == [];
    assert ValidTasks(dealt[..1]) == [];
    assert ValidTasks(dealt) == ValidTasks(dealt[..1]) + [dealt[1]];
  }

  /** `totalValidTasks`: the non-blank tasks summed over the unassigned and agent columns. */
  function TotalValidTasks(b: Board, agentColumns: seq<string>): (r: nat)
    ensures r == |ValidTasks(Flatten(b, AllColumns(agentColumns)))|
  {
    ValidCountFlatten(b, AllColumns(agentColumns));
    ValidCount(b, AllColumns(agentColumns))
  }

  function ValidCount(b: Board, cols: seq<string>): nat {
    if |cols| == 0 then 0 else ValidCount(b, cols[..|cols| - 1]) + |ValidTasks(Column(b, cols[|cols| - 1]))|
  }

  lemma {:induction false} ValidCountFlatten(b: Board, cols: seq<string>)
    ensures ValidCount(b, cols) == |ValidTasks(Flatten(b, cols))|
  {
    if |cols| > 0 {
      var n := |cols| - 1;
      ValidCountFlatten(b, cols[..n]);
      ValidTasksAppend(Flatten(b, cols[..n]), Column(b, cols[n]));
    }
  }

  lemma {:induction false} DealtValidCount(ts: seq<Todo>, agentColumns: seq<string>)
    ensures |ValidTasks(RoundRobinAssigned(ts, agentColumns))| == |ValidTasks(ts)|
  {
    if |ts| > 0 {
      var n := |ts| - 1;
      DealtValidCount(ts[..n], agentColumns);
      var d := RoundRobinAssigned(ts, agentColumns);
      assert d == RoundRobinAssigned(ts[..n], agentColumns) + [d[n]];
      assert ts == ts[..n] + [ts[n]];
      ValidTasksAppend(RoundRobinAssigned(ts[..n], agentColumns), [d[n]]);
      ValidTasksAppend(ts[..n], [ts[n]]);
      assert [d[n]][..0] == [] && [ts[n]][..0] == [];
    }
  }

  /** The counter on the approve button counts exactly the tasks that approval hands on. */
  lemma ApproveCountMatchesTotal(b: Board, agentColumns: seq<string>)
    ensures |ApprovedTasks(b, agentColumns)| == TotalValidTasks(b, agentColumns)
  {
    var flat := Flatten(b, agentColumns);
    var dealt := RoundRobinAssigned(Column(b, Unassigned), agentColumns);
    ValidTasksAppend(flat, dealt);
    DealtValidCount(Column(b, Unassigned), agentColumns);
    FlattenCons(b, Unassigned, agentColumns);
    ValidTasksAppend(Column(b, Unassigned), flat);
    ValidCountFlatten(b, AllColumns(agentColumns));
    ValidCountFlatten(b, agentColumns);
  }
}
