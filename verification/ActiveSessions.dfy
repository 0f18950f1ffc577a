/**
 The registry of running sessions and thread reservations.

 Each method body is one critical section.  `Registry` is the value of the fields that the exclusion
 rules read; the step predicates say what each method does to it.
 */
module ActiveSessions {
  import opened Prelude

  const MAX_RECORDED_TOOLS := 20

  datatype ActiveSession = ActiveSession(thread: string, step: string, tools: seq<string>)

  /** Session id to thread, session id to reference count, and the reserved threads. */
  datatype Registry = Registry(threads: map<string, string>, refs: map<string, nat>, mutations: set<string>)

  ghost predicate HasSession(r: Registry, thread: string) {
    exists id :: id in r.threads && r.threads[id] == thread
  }

  predicate CanReserve(r: Registry, thread: string, requireIdle: bool) {
    thread !in r.mutations && (requireIdle ==> forall id :: id in r.threads ==> r.threads[id] != thread)
  }

  /** A reservation attempt: refused without a change, or recorded. */
  ghost predicate ReserveStep(r: Registry, r': Registry, thread: string, requireIdle: bool, ok: bool) {
    && ok == CanReserve(r, thread, requireIdle)
    && r' == if ok then r.(mutations := r.mutations + {thread}) else r
  }

  ghost predicate EndReservationStep(r: Registry, r': Registry, thread: string) {
    r' == r.(mutations := r.mutations - {thread})
  }

  /** An attempt to acquire a session for `thread`, offering `newId` for a new one: refused while the
      thread is reserved, else it shares the thread's session or registers a new one. */
  ghost predicate AcquireStep(r: Registry, r': Registry, thread: string, newId: string, id: Option<string>) {
    match id
    case None => thread in r.mutations && r' == r
    case Some(id) =>
      && thread !in r.mutations
      && r'.mutations == r.mutations
      && (if HasSession(r, thread)
          then id in r.threads && r.threads[id] == thread && r'.threads == r.threads
              && r'.refs == r.refs[id := RefCount(r, id, 1) + 1]
          else id == newId && r'.threads == r.threads[id := thread] && r'.refs == r.refs[id := 1])
  }

  function RefCount(r: Registry, id: string, default: nat): nat {
    if id in r.refs then r.refs[id] else default
  }

  function Without(r: Registry, id: string): Registry {
    r.(threads := r.threads - {id}, refs := r.refs - {id})
  }

  ghost predicate ReleaseStep(r: Registry, r': Registry, id: string) {
    r' == if RefCount(r, id, 0) > 1 then r.(refs := r.refs[id := r.refs[id] - 1]) else Without(r, id)
  }

  class ActiveSessionRegistry {
    var sessions: map<string, ActiveSession>
    var tasks: map<string, nat>
    var refcounts: map<string, nat>
    var threadMutations: set<string>

    ghost function State(): Registry
      reads this
    {
      Registry(map id | id in sessions :: sessions[id].thread, refcounts, threadMutations)
    }

    constructor ()
      ensures State() == Registry(map[], map[], {}) && tasks == map[]
    {
      sessions, tasks, refcounts, threadMutations := map[], map[], map[], {};
    }

    /** The session of a thread, if any: the search loop of acquire and of the idle check. */
    method FindSession(thread: string) returns (found: Option<string>)
      ensures found.None? <==> !HasSession(State(), thread)
      ensures found.Some? ==> found.value in sessions && sessions[found.value].thread == thread
    {
      var remaining := sessions.Keys;
      while remaining != {}
        invariant remaining <= sessions.Keys
        invariant forall id :: id in sessions && id !in remaining ==> sessions[id].thread != thread
        decreases remaining
      {
        var id :| id in remaining;
        if sessions[id].thread == thread {
          assert State().threads[id] == thread;
          return Some(id);
        }
        remaining := remaining - {id};
      }
      return None;
    }

    method ReserveThreadMutation(thread: string, requireIdle: bool) returns (ok: bool)
      modifies this`threadMutations
      ensures ReserveStep(old(State()), State(), thread, requireIdle, ok)
    {
      if thread in threadMutations {
        return false;
      }
      if requireIdle {
        var found := FindSession(thread);
        if found.Some? {
          assert State().threads[found.value] == thread;
          return false;
        }
      }
      threadMutations := threadMutations + {thread};
      return true;
    }

    method EndReservation(thread: string)
      modifies this`threadMutations
      ensures EndReservationStep(old(State()), State(), thread)
    {
      threadMutations := threadMutations - {thread};
    }

    method Acquire(thread: string, newId: string, task: Option<nat>) returns (id: Option<string>)
      requires newId !in sessions
      modifies this
      ensures AcquireStep(old(State()), State(), thread, newId, id)
      ensures tasks == if id.Some? && task.Some? then old(tasks)[id.value := task.value] else old(tasks)
      ensures sessions == if id == Some(newId) then old(sessions)[newId := ActiveSession(thread, "initializing", [])]
                          else old(sessions)
    {
      if thread in threadMutations {
        return None;
      }
      var existing := FindSession(thread);
      if existing.Some? {
        var count := if existing.value in refcounts then refcounts[existing.value] else 1;
        refcounts := refcounts[existing.value := count + 1];
        id := existing;
      } else {
        sessions := sessions[newId := ActiveSession(thread, "initializing", [])];
        refcounts := refcounts[newId := 1];
        id := Some(newId);
        assert State().threads == old(State()).threads[newId := thread];
      }
      if task.Some? {
        tasks := tasks[id.value := task.value];
      }
    }

    method Unregister(id: string)
      modifies this
      ensures State() == Without(old(State()), id)
      ensures sessions == old(sessions) - {id} && tasks == old(tasks) - {id}
    {
      sessions := sessions - {id};
      tasks := tasks - {id};
      refcounts := refcounts - {id};
    }

    method Release(id: string)
      modifies this
      ensures ReleaseStep(old(State()), State(), id)
      ensures var last := !(id in old(refcounts) && old(refcounts)[id] > 1);
              && sessions == (if last then old(sessions) - {id} else old(sessions))
              && tasks == (if last then old(tasks) - {id} else old(tasks))
    {
      var refcount := if id in refcounts then refcounts[id] else 0;
      if refcount > 1 {
        refcounts := refcounts[id := refcount - 1];
        return;
      }
      Unregister(id);
    }

    /** Recording a tool call keeps the 20 most recent ones and touches nothing else. */
    method AddToolCall(id: string, tool: string)
      modifies this`sessions
      ensures State() == old(State())
      ensures sessions.Keys == old(sessions).Keys
      ensures id in sessions ==>
                var all := old(sessions)[id].tools + [tool];
                && sessions[id].tools == (if |all| <= 20 then all else all[|all| - 20..])
                && sessions[id].step == "tool:" + tool
      ensures forall x :: x in sessions && x != id ==> sessions[x] == old(sessions)[x]
    {
      if id in sessions {
        var all := sessions[id].tools + [tool];
        var kept := all[Max(0, |all| - MAX_RECORDED_TOOLS)..];
        sessions := sessions[id := sessions[id].(tools := kept, step := "tool:" + tool)];
      }
    }
  }
}
