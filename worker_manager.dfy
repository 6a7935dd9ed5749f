/**
 * Worker supervisor bookkeeping (frontend/lib/worker-manager.ts): for every session a
 * table from agent id to worker process, filled when workers are spawned, emptied one
 * entry at a time as workers exit, and dropped after a kill-all.  Processes are opaque
 * handles and killing one is a recorded action.
 */
module WorkerManager {
  import opened Wrappers
  import opened SessionStore

  /** An operating-system process, known only by its id. */
  datatype Handle = Handle(pid: nat)

  // ---------------------------------------------------------------------------
  // An insertion-ordered JavaScript Map from agent id to handle

  type Entries = seq<(string, Handle)>

  function Keys(e: Entries): set<string> {
    set i | 0 <= i < |e| :: e[i].0
  }

  predicate DistinctKeys(e: Entries) {
    forall i, j :: 0 <= i < j < |e| ==> e[i].0 != e[j].0
  }

  /** `map.set(key, h)`: an existing key keeps its position and gets the new handle;
      a new key goes last. */
  function MapSet(e: Entries, key: string, h: Handle): (r: Entries)
    ensures key in Keys(e) ==> |r| == |e|
    ensures key !in Keys(e) ==> r == e + [(key, h)]
    ensures Keys(r) == Keys(e) + {key}
    ensures forall i :: 0 <= i < |e| ==> r[i].0 == e[i].0
    ensures forall i :: 0 <= i < |e| ==> r[i] == (if e[i].0 == key then (key, h) else e[i])
    ensures DistinctKeys(e) ==> DistinctKeys(r)
  {
    if key in Keys(e) then
      var r := seq(|e|, i requires 0 <= i < |e| => if e[i].0 == key then (key, h) else e[i]);
      assert Keys(r) == Keys(e) by {
        forall k | k in Keys(r) ensures k in Keys(e) {
          var i :| 0 <= i < |r| && r[i].0 == k;
          assert e[i].0 == k;
        }
        forall k | k in Keys(e) ensures k in Keys(r) {
          var i :| 0 <= i < |e| && e[i].0 == k;
          assert r[i].0 == k;
        }
      }
      r
    else
      KeysSnoc(e, (key, h));
      e + [(key, h)]
  }

  /** `map.delete(key)`: exactly the entries with another key remain, in their order. */
  function MapDelete(e: Entries, key: string): (r: Entries)
    ensures Keys(r) == Keys(e) - {key}
    ensures key !in Keys(e) ==> r == e
    ensures forall x :: x in r <==> x in e && x.0 != key
    ensures DistinctKeys(e) ==> DistinctKeys(r)
    ensures |r| <= |e|
  {
    if |e| == 0 then []
    else
      var rest := MapDelete(e[1..], key);
      var r := if e[0].0 == key then rest else [e[0]] + rest;
      DeleteKeys(e, key, rest, r);
      DeleteMembers(e, key, rest, r);
      DeleteDistinct(e, key, rest, r);
      r
  }

  /** The keys left by one step of `MapDelete`. */
  lemma DeleteKeys(e: Entries, key: string, rest: Entries, r: Entries)
    requires |e| > 0
    requires Keys(rest) == Keys(e[1..]) - {key}
    requires key !in Keys(e[1..]) ==> rest == e[1..]
    requires r == if e[0].0 == key then rest else [e[0]] + rest
    ensures Keys(r) == Keys(e) - {key}
    ensures key !in Keys(e) ==> r == e
  {
    KeysCons(e[0], e[1..]);
    assert [e[0]] + e[1..] == e;
    if e[0].0 != key {
      KeysCons(e[0], rest);
    }
  }

  /** The entries left by one step of `MapDelete`. */
  lemma DeleteMembers(e: Entries, key: string, rest: Entries, r: Entries)
    requires |e| > 0
    requires forall x :: x in rest <==> x in e[1..] && x.0 != key
    requires r == if e[0].0 == key then rest else [e[0]] + rest
    ensures forall x :: x in r <==> x in e && x.0 != key
  {
    assert [e[0]] + e[1..] == e;
  }

  /** One step of `MapDelete` keeps the keys distinct. */
  lemma DeleteDistinct(e: Entries, key: string, rest: Entries, r: Entries)
    requires |e| > 0
    requires Keys(rest) == Keys(e[1..]) - {key}
    requires DistinctKeys(e[1..]) ==> DistinctKeys(rest)
    requires r == if e[0].0 == key then rest else [e[0]] + rest
    ensures DistinctKeys(e) ==> DistinctKeys(r)
  {
    assert [e[0]] + e[1..] == e;
    DistinctCons(e[0], e[1..]);
    if e[0].0 != key {
      DistinctCons(e[0], rest);
    }
  }

  lemma DistinctCons(x: (string, Handle), rest: Entries)
    ensures DistinctKeys([x] + rest) <==> DistinctKeys(rest) && x.0 !in Keys(rest)
  {
    var e := [x] + rest;
    if DistinctKeys(e) {
      forall i, j | 0 <= i < j < |rest| ensures rest[i].0 != rest[j].0 {
        assert e[i + 1] == rest[i] && e[j + 1] == rest[j];
      }
      forall i | 0 <= i < |rest| ensures rest[i].0 != x.0 {
        assert e[0] == x && e[i + 1] == rest[i];
      }
    }
    if DistinctKeys(rest) && x.0 !in Keys(rest) {
      forall i, j | 0 <= i < j < |e| ensures e[i].0 != e[j].0 {
        assert e[j] == rest[j - 1];
        if i > 0 { assert e[i] == rest[i - 1]; }
        else { assert rest[j - 1].0 in Keys(rest); }
      }
    }
  }

  lemma KeysCons(x: (string, Handle), rest: Entries)
    ensures Keys([x] + rest) == {x.0} + Keys(rest)
  {
    var e := [x] + rest;
    assert e[0].0 == x.0;
    forall k | k in Keys(e) ensures k in {x.0} + Keys(rest) {
      var i :| 0 <= i < |e| && e[i].0 == k;
      if i > 0 { assert rest[i - 1].0 == k; }
    }
    forall k | k in Keys(rest) ensures k in Keys(e) {
      var i :| 0 <= i < |rest| && rest[i].0 == k;
      assert e[i + 1].0 == k;
    }
  }

  lemma KeysSnoc(e: Entries, x: (string, Handle))
    ensures Keys(e + [x]) == Keys(e) + {x.0}
  {
    var r := e + [x];
    assert r[|e|].0 == x.0;
    forall k | k in Keys(r) ensures k in Keys(e) + {x.0} {
      var i :| 0 <= i < |r| && r[i].0 == k;
      if i < |e| { assert e[i].0 == k; }
    }
    forall k | k in Keys(e) ensures k in Keys(r) {
      var i :| 0 <= i < |e| && e[i].0 == k;
      assert r[i].0 == k;
    }
  }

  function Zip(ids: seq<string>, handles: seq<Handle>): (r: Entries)
    requires |ids| == |handles|
    ensures |r| == |ids|
    ensures forall i :: 0 <= i < |r| ==> r[i] == (ids[i], handles[i])
  {
    if |ids| == 0 then [] else Zip(ids[..|ids| - 1], handles[..|ids| - 1]) + [(ids[|ids| - 1], handles[|ids| - 1])]
  }

  /** The table the spawn loop builds by setting each new agent id in turn. */
  function SetAll(ids: seq<string>, handles: seq<Handle>): Entries
    requires |ids| == |handles|
  {
    if |ids| == 0 then [] else MapSet(SetAll(ids[..|ids| - 1], handles[..|ids| - 1]), ids[|ids| - 1], handles[|ids| - 1])
  }

  lemma SetAllSnoc(ids: seq<string>, handles: seq<Handle>, i: nat)
    requires |ids| == |handles| && i < |ids|
    ensures SetAll(ids[..i + 1], handles[..i + 1]) == MapSet(SetAll(ids[..i], handles[..i]), ids[i], handles[i])
  {
    assert ids[..i + 1][..i] == ids[..i];
    assert handles[..i + 1][..i] == handles[..i];
  }

  /** With fresh (pairwise distinct) agent ids the spawn loop's table holds exactly one
      entry per agent, in spawn order. */
  lemma {:induction false} SetAllDistinct(ids: seq<string>, handles: seq<Handle>)
    requires |ids| == |handles|
    requires forall i, j :: 0 <= i < j < |ids| ==> ids[i] != ids[j]
    ensures SetAll(ids, handles) == Zip(ids, handles)
  {
    if |ids| > 0 {
      var n := |ids| - 1;
      SetAllDistinct(ids[..n], handles[..n]);
      var prefix := Zip(ids[..n], handles[..n]);
      assert forall i :: 0 <= i < |prefix| ==> prefix[i].0 == ids[i] != ids[n];
      assert ids[n] !in Keys(prefix);
    }
  }

  // ---------------------------------------------------------------------------
  // The effect of a kill-all on the session table

  /** The agents fresh from a spawn: booting, without task, with zero counters. */
  function BootingAgents(sessionId: string, ids: seq<string>): (r: seq<Agent>)
    ensures |r| == |ids|
    ensures forall i :: 0 <= i < |r| ==>
      r[i] == Agent(ids[i], sessionId, Booting, None, None, Some(0), Some(0))
  {
    if |ids| == 0 then []
    else BootingAgents(sessionId, ids[..|ids| - 1]) + [Agent(ids[|ids| - 1], sessionId, Booting, None, None, Some(0), Some(0))]
  }

  lemma BootingSnoc(sessionId: string, ids: seq<string>, i: nat)
    requires i < |ids|
    ensures BootingAgents(sessionId, ids[..i + 1])
         == BootingAgents(sessionId, ids[..i]) + [Agent(ids[i], sessionId, Booting, None, None, Some(0), Some(0))]
  {
    assert ids[..i + 1][..i] == ids[..i];
  }

  /** Every agent of a table marked terminated in the store, in table order. */
  function TerminateAll(sessions: map<string, Session>, sessionId: string, e: Entries): (r: map<string, Session>)
    ensures r.Keys == sessions.Keys
    ensures sessionId in sessions ==> |r[sessionId].agents| == |sessions[sessionId].agents|
  {
    if |e| == 0 then sessions
    else SetAgentStatus(TerminateAll(sessions, sessionId, e[..|e| - 1]), sessionId, e[|e| - 1].0, Terminated)
  }

  /** A kill-all changes only the session whose table it was; there it changes only agent
      statuses, only to `terminated`, and only for agents named in the table. */
  lemma {:induction false} TerminateAllFrame(sessions: map<string, Session>, sessionId: string, e: Entries)
    ensures var r := TerminateAll(sessions, sessionId, e);
      r.Keys == sessions.Keys
      && (forall k :: k in sessions && k != sessionId ==> r[k] == sessions[k])
      && (sessionId in sessions ==>
            var a := sessions[sessionId].agents;
            var b := r[sessionId].agents;
            r[sessionId].(agents := a) == sessions[sessionId]
            && |b| == |a|
            && forall j :: 0 <= j < |a| ==>
                 b[j].(status := a[j].status) == a[j]
                 && (b[j].status == a[j].status || (b[j].status == Terminated && a[j].id in Keys(e))))
  {
    if |e| > 0 {
      TerminateAllFrame(sessions, sessionId, e[..|e| - 1]);
    }
  }

  /** A kill-all keeps the session's agents and their ids in place. */
  lemma {:induction false} TerminateAllIds(sessions: map<string, Session>, sessionId: string, e: Entries)
    requires sessionId in sessions
    ensures var a := sessions[sessionId].agents;
      var b := TerminateAll(sessions, sessionId, e)[sessionId].agents;
      |b| == |a| && forall j :: 0 <= j < |a| ==> b[j].id == a[j].id
  {
    if |e| > 0 {
      TerminateAllIds(sessions, sessionId, e[..|e| - 1]);
    }
  }

  /** Every agent named in the table, at its first position in the session, ends terminated. */
  lemma {:induction false} TerminateAllTerminates(sessions: map<string, Session>, sessionId: string, e: Entries, j: nat)
    requires sessionId in sessions && j < |sessions[sessionId].agents|
    requires sessions[sessionId].agents[j].id in Keys(e)
    requires FindAgent(sessions[sessionId].agents, Some(sessions[sessionId].agents[j].id)) == Some(j)
    ensures TerminateAll(sessions, sessionId, e)[sessionId].agents[j].status == Terminated
  {
    var n := |e| - 1;
    var id := sessions[sessionId].agents[j].id;
    var before := TerminateAll(sessions, sessionId, e[..n]);
    if e[n].0 == id {
      TerminateAllIds(sessions, sessionId, e[..n]);
      SameIdsSameFind(sessions[sessionId].agents, before[sessionId].agents, id);
    } else {
      var i :| 0 <= i < |e| && e[i].0 == id;
      assert e[..n][i].0 == id;
      TerminateAllTerminates(sessions, sessionId, e[..n], j);
    }
  }

  /** The first-match search depends only on the agents' ids. */
  lemma {:induction false} SameIdsSameFind(a: seq<Agent>, b: seq<Agent>, id: string)
    requires |a| == |b| && forall j :: 0 <= j < |a| ==> a[j].id == b[j].id
    ensures FindAgent(a, Some(id)) == FindAgent(b, Some(id))
  {
    if |a| > 0 && a[0].id != id {
      SameIdsSameFind(a[1..], b[1..], id);
    }
  }

  /** Marking terminated twice is marking terminated once. */
  lemma {:induction false} SetAgentStatusTwice(sessions: map<string, Session>, sessionId: string, agentId: string, status: AgentStatus)
    ensures SetAgentStatus(SetAgentStatus(sessions, sessionId, agentId, status), sessionId, agentId, status)
         == SetAgentStatus(sessions, sessionId, agentId, status)
  {
    if sessionId in sessions {
      var s := sessions[sessionId];
      var s1 := WithAgentStatus(s, agentId, status);
      SameIdsSameFind(s.agents, s1.agents, agentId);
      assert WithAgentStatus(s1, agentId, status) == s1;
    }
  }

  // ---------------------------------------------------------------------------
  // The supervisor

  /** One session's table of worker processes, a Map object shared with the exit
      callbacks of the workers spawned into it. */
  class ProcessTable {
    var entries: Entries

    constructor()
      ensures entries == []
    {
      entries := [];
    }

    method Set(key: string, h: Handle)
      modifies this
      ensures entries == MapSet(old(entries), key, h)
    {
      entries := MapSet(entries, key, h);
    }

    method Delete(key: string)
      modifies this
      ensures entries == MapDelete(old(entries), key)
    {
      entries := MapDelete(entries, key);
    }
  }

  /** The exit callback of a worker: it deletes the agent from the table it was spawned
      into, which need no longer be the session's current table.  Nothing in the session
      store changes. */
  method WorkerExited(table: ProcessTable, agentId: string)
    modifies table
    ensures table.entries == MapDelete(old(table.entries), agentId)
    ensures agentId !in Keys(table.entries)
  {
    table.Delete(agentId);
  }

  lemma AgentsAppended(s0: Session, xs: seq<Agent>, x: Agent)
    ensures var b := s0.(agents := s0.agents + xs); b.(agents := b.agents + [x]) == s0.(agents := s0.agents + (xs + [x]))
  {
    assert s0.agents + xs + [x] == s0.agents + (xs + [x]);
  }

  /** The spawn loop: one booting agent added to the store and one entry set in the
      fresh table per id, in order. */
  method SpawnInto(store: Store, table: ProcessTable, sessionId: string, agentIds: seq<string>, handles: seq<Handle>)
    requires sessionId in store.sessions && table.entries == []
    requires |agentIds| == |handles|
    modifies store, table
    ensures store.sessions == old(store.sessions)[sessionId := old(store.sessions)[sessionId].(
      agents := old(store.sessions)[sessionId].agents + BootingAgents(sessionId, agentIds))]
    ensures table.entries == SetAll(agentIds, handles)
  {
    ghost var base := store.sessions;
    ghost var s0 := store.sessions[sessionId];
    assert s0.(agents := s0.agents + BootingAgents(sessionId, agentIds[..0])) == s0;
    assert base[sessionId := s0] == base;
    for i := 0 to |agentIds|
      invariant store.sessions == base[sessionId := s0.(agents := s0.agents + BootingAgents(sessionId, agentIds[..i]))]
      invariant table.entries == SetAll(agentIds[..i], handles[..i])
    {
      var agent := Agent(agentIds[i], sessionId, Booting, None, None, Some(0), Some(0));
      BootingSnoc(sessionId, agentIds, i);
      SetAllSnoc(agentIds, handles, i);
      ghost var before := s0.(agents := s0.agents + BootingAgents(sessionId, agentIds[..i]));
      ghost var after := s0.(agents := s0.agents + BootingAgents(sessionId, agentIds[..i + 1]));
      AgentsAppended(s0, BootingAgents(sessionId, agentIds[..i]), agent);
      Overwrite(base, sessionId, before, after);
      var _ := store.AddAgent(sessionId, agent);
      table.Set(agentIds[i], handles[i]);
    }
    assert agentIds[..|agentIds|] == agentIds;
    assert handles[..|agentIds|] == handles;
  }

  class Supervisor {
    /** `workerProcesses`: session id to that session's current table. */
    var workerProcesses: map<string, ProcessTable>
    /** Every handle sent SIGTERM, in order. */
    var killed: seq<Handle>

    constructor()
      ensures workerProcesses == map[] && killed == []
    {
      workerProcesses := map[];
      killed := [];
    }

    /** Spawns `agentCount` workers for a session: `agentIds` are the fresh ids and
        `handles` the processes started for them.  The previous table of the session, if
        any, is replaced, and its processes are not killed. */
    method SpawnWorkers(store: Store, sessionId: string, agentCount: nat, agentIds: seq<string>, handles: seq<Handle>)
      returns (r: Outcome)
      requires |agentIds| == agentCount && |handles| == agentCount
      modifies this, store
      ensures sessionId !in old(store.sessions) ==>
        r == Fail(NotFound(sessionId)) && store.sessions == old(store.sessions)
        && workerProcesses == old(workerProcesses)
      ensures sessionId in old(store.sessions) ==>
        r == Pass
        && store.sessions == old(store.sessions)[sessionId := old(store.sessions)[sessionId].(
             agents := old(store.sessions)[sessionId].agents + BootingAgents(sessionId, agentIds))]
        && sessionId in workerProcesses && fresh(workerProcesses[sessionId])
        && workerProcesses == old(workerProcesses)[sessionId := workerProcesses[sessionId]]
        && workerProcesses[sessionId].entries == SetAll(agentIds, handles)
      ensures killed == old(killed)
    {
      if sessionId !in store.sessions {
        return Fail(NotFound(sessionId));
      }
      var table := new ProcessTable();
      workerProcesses := workerProcesses[sessionId := table];
      SpawnInto(store, table, sessionId, agentIds, handles);
      r := Pass;
    }

    /** Sends SIGTERM to every process still in the session's table and marks its agent
        terminated, then forgets the table; without a table nothing happens. */
    method KillAllWorkers(store: Store, sessionId: string)
      modifies this, store
      ensures sessionId !in old(workerProcesses) ==>
        workerProcesses == old(workerProcesses) && killed == old(killed)
        && store.sessions == old(store.sessions)
      ensures sessionId in old(workerProcesses) ==>
        var e := old(workerProcesses[sessionId].entries);
        workerProcesses == old(workerProcesses) - {sessionId}
        && killed == old(killed) + HandlesOf(e)
        && store.sessions == TerminateAll(old(store.sessions), sessionId, e)
      ensures sessionId !in workerProcesses
    {
      if sessionId !in workerProcesses {
        return;
      }
      var e := workerProcesses[sessionId].entries;
      for i := 0 to |e|
        invariant killed == old(killed) + HandlesOf(e[..i])
        invariant store.sessions == TerminateAll(old(store.sessions), sessionId, e[..i])
        invariant workerProcesses == old(workerProcesses)
      {
        killed := killed + [e[i].1];
        store.UpdateAgentStatus(sessionId, e[i].0, Terminated);
        assert e[..i + 1][..i] == e[..i];
      }
      assert e[..|e|] == e;
      workerProcesses := workerProcesses - {sessionId};
    }
  }

  function HandlesOf(e: Entries): (r: seq<Handle>)
    ensures |r| == |e|
    ensures forall i :: 0 <= i < |e| ==> r[i] == e[i].1
  {
    if |e| == 0 then [] else HandlesOf(e[..|e| - 1]) + [e[|e| - 1].1]
  }

  /** Killing all workers twice is killing them once: the second call finds no table. */
  method KillAllTwice(sup: Supervisor, store: Store, sessionId: string)
    modifies sup, store
    ensures sessionId in old(sup.workerProcesses) ==>
      var e := old(sup.workerProcesses[sessionId].entries);
      sup.workerProcesses == old(sup.workerProcesses) - {sessionId}
      && sup.killed == old(sup.killed) + HandlesOf(e)
      && store.sessions == TerminateAll(old(store.sessions), sessionId, e)
    ensures sessionId !in old(sup.workerProcesses) ==>
      sup.workerProcesses == old(sup.workerProcesses) && sup.killed == old(sup.killed)
      && store.sessions == old(store.sessions)
  {
    sup.KillAllWorkers(store, sessionId);
    sup.KillAllWorkers(store, sessionId);
  }
}
