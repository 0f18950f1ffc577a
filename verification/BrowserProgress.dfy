/** Progress of the browser service: whoever need not wait has a step to take. */
module BrowserProgress {
  import opened Prelude
  import opened Ordering
  import opened BrowserModel
  import opened BrowserLocks
  import opened BrowserSessions

  // ---------------------------------------------------------------- choices that a deletion can always make

  lemma {:induction false} LeastString(xs: set<string>) returns (least: string)
    requires xs != {}
    ensures least in xs && forall x :: x in xs ==> x == least || Before(least, x)
    decreases |xs|
  {
    var x :| x in xs;
    var others := xs - {x};
    if others == {} {
      assert xs == {x};
      return x;
    }
    var rest := LeastString(others);
    BeforeTotal(x, rest);
    if Before(x, rest) {
      forall y | y in xs && y != x ensures Before(x, y) {
        if y != rest {
          BeforeTransitive(x, rest, y);
        }
      }
      return x;
    }
    return rest;
  }

  /** Every finite set of strings can be listed in increasing order. */
  lemma {:induction false} SortedList(xs: set<string>) returns (list: seq<string>)
    ensures Increasing(list) && forall x :: x in list <==> x in xs
    decreases |xs|
  {
    if xs == {} {
      return [];
    }
    var least := LeastString(xs);
    var rest := SortedList(xs - {least});
    list := [least] + rest;
    assert forall j :: 0 <= j < |rest| ==> rest[j] in rest;
  }

  lemma {:induction false} Bound(xs: set<nat>) returns (n: nat)
    ensures forall x :: x in xs ==> x < n
    decreases |xs|
  {
    if xs == {} {
      return 0;
    }
    var x :| x in xs;
    var rest := Bound(xs - {x});
    n := if rest > x then rest else x + 1;
    forall y | y in xs ensures y < n {
      if y != x {
        assert y in xs - {x};
      }
    }
  }

  /** Closing tasks for any sessions, under names that are not in use. */
  lemma {:induction false} NewKids(used: set<nat>, gens: set<nat>, d: nat) returns (kids: map<nat, Op>)
    ensures forall k :: k in kids ==>
        k !in used && kids[k].task.CloseOne? && kids[k] == Initial(CloseOne(kids[k].task.gen, d))
    ensures forall k :: k in kids ==> kids[k].task.gen in gens
    ensures forall g :: g in gens ==> exists k :: k in kids && kids[k].task.gen == g
    decreases |gens|
  {
    if gens == {} {
      return map[];
    }
    var g :| g in gens;
    var name := Bound(used);
    var rest := NewKids(used + {name}, gens - {g}, d);
    kids := rest[name := Initial(CloseOne(g, d))];
    forall h | h in gens ensures exists k :: k in kids && kids[k].task.gen == h {
      if h != g {
        assert h in gens - {g};
        var k :| k in rest && rest[k].task.gen == h;
        assert k in kids && kids[k].task.gen == h;
      } else {
        assert name in kids && kids[name].task.gen == g;
      }
    }
  }

  lemma TargetsExist(s: State, thread: string) returns (targets: seq<string>)
    ensures ProperTargets(s, thread, targets)
  {
    hide Matches, Before;
    var inside := set o | o in s.ops && Inside(s.ops[o]) && Matches(ThreadOf(s.ops[o].task).value, thread) ::
        ThreadOf(s.ops[o].task).value;
    var open := set t | t in s.sessions && Matches(t, thread);
    MatchesItself(thread);
    targets := SortedList({thread} + inside + open);
  }

  lemma MatchesItself(thread: string)
    ensures Matches(thread, thread)
  {
  }

  lemma KidsExist(s: State, d: nat, thread: string) returns (kids: map<nat, Op>)
    requires Registered(s)
    ensures ProperKids(s, d, thread, kids)
  {
    hide Matches;
    var gens := set t | t in s.sessions && Matches(t, thread) :: s.sessions[t];
    kids := NewKids(s.ops.Keys, gens, d);
    forall t | t in s.sessions && Matches(t, thread)
      ensures exists k :: k in kids && kids[k].task.gen == s.sessions[t]
    {
      assert s.sessions[t] in gens;
    }
  }

  // ---------------------------------------------------------------- progress

  const ANY := Choice(false, "", 0, {}, [], map[])

  lemma DeletionHasPlan(s: State, id: nat, op: Op) returns (ch: Choice)
    requires Registered(s) && DeleteShape(op) && op.task.DeleteThread? && Wants(op).None?
    requires op.pc.Gathering? ==> Gathered(s, id)
    ensures PlanDelete(s, id, op, ch).Some?
  {
    hide ProperTargets, ProperKids, Gathered, Increasing;
    ch := ANY;
    if op.pc.Marked? {
      var targets := TargetsExist(s, op.task.thread);
      ch := ANY.(targets := targets);
    } else if op.pc.Locking? {
      var kids := KidsExist(s, id, op.task.thread);
      ch := ANY.(kids := kids);
    }
  }

  lemma OthersHavePlan(s: State, id: nat, op: Op, ch: Choice)
    requires WellFormed(op) && !op.task.DeleteThread? && Wants(op).None?
    ensures Plan(s, id, op, ch).Some?
  {
    hide PlanEntering, PlanInThread, PlanReplay, PlanReading, PlanClosing, PlanExpiring, PlanLooking, PlanVisited;
    hide PlanHaveProfile, PlanLaunching, PlanHaveSession, PlanDisposing, PlanDriving, PlanDriven, PlanParked,
        PlanReturning, PlanSelecting;
    hide Increasing;
  }

  lemma DeletionPlans(s: State, id: nat, op: Op, ch: Choice)
    requires WellFormed(op) && op.task.DeleteThread? && Wants(op).None?
    ensures Plan(s, id, op, ch) == PlanDelete(s, id, op, ch)
  {
    hide PlanDelete, Increasing;
  }

  /** An operation that neither waits for a lock nor for its closing tasks has a segment to run. */
  lemma HasPlan(s: State, id: nat) returns (ch: Choice)
    requires Registered(s) && AllWellFormed(s) && id in s.ops && !Waiting(s, id)
    ensures Plan(s, id, s.ops[id], ch).Some?
  {
    hide Plan, PlanDelete, Gathered, DeleteShape, TaskShape, Registered;
    var op := s.ops[id];
    if op.task.DeleteThread? {
      ch := DeletionHasPlan(s, id, op);
      DeletionPlans(s, id, op, ch);
    } else {
      ch := ANY;
      OthersHavePlan(s, id, op, ch);
    }
  }

  /** The operation takes a step of its own: it is given its lock, or it runs its next segment. */
  ghost predicate Steps(s: State, s': State, id: nat) {
    Grant(s, s', id) || exists ch :: Work(s, s', id, ch)
  }

  lemma CanProceedSteps(s: State, id: nat) returns (s': State)
    requires Registered(s) && AllWellFormed(s) && id in s.ops && CanProceed(s, id)
    ensures Steps(s, s', id) && Next(s, s')
  {
    hide Plan, Perform, Registered, WellFormed, Free, Gathered;
    if Wants(s.ops[id]).Some? {
      s' := s.(ops := s.ops[id := Granted(s.ops[id])]);
      assert Grant(s, s', id);
    } else {
      var ch := HasPlan(s, id);
      s' := Perform(s, id, Plan(s, id, s.ops[id], ch).value);
      assert Work(s, s', id, ch);
    }
  }

  /** In every reachable state, from every operation a chain of waits leads to one that can take a step of its
      own at once: no set of operations is ever stuck. */
  lemma SomebodySteps(run: seq<State>, i: nat, a: nat) returns (chain: seq<nat>, s': State)
    requires Run(run) && i < |run| && a in run[i].ops
    ensures WaitChain(run[i], chain) && chain[0] == a
    ensures Steps(run[i], s', chain[|chain| - 1]) && Next(run[i], s')
  {
    hide Run, Next, Steps, WaitChain;
    RunSessionsOk(run, i);
    chain := RunNeverDeadlocks(run, i, a);
    ChainInState(run[i], chain);
    MapsParts(run[i]);
    s' := CanProceedSteps(run[i], chain[|chain| - 1]);
  }

  lemma ChainInState(s: State, chain: seq<nat>)
    requires WaitChain(s, chain)
    ensures chain != [] && chain[|chain| - 1] in s.ops
  {
  }
}
