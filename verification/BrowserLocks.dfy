/** Locks of the browser service: mutual exclusion, lock order and freedom from deadlock. */
module BrowserLocks {
  import opened Prelude
  import opened ThreadIds
  import opened Ordering
  import opened BrowserModel

  // ---------------------------------------------------------------- mutual exclusion

  /** No lock is held by two operations. */
  ghost predicate Mutex(s: State) {
    forall a, b, k :: a in s.ops && b in s.ops && Holds(s.ops[a], k) && Holds(s.ops[b], k) ==> a == b
  }

  /** `next` holds nothing that `op` does not hold. */
  ghost predicate Shrinks(next: Op, op: Op) {
    forall k :: Holds(next, k) ==> Holds(op, k)
  }

  lemma PlanShrinksLow(s: State, id: nat, op: Op, ch: Choice, k: Key)
    requires Plan(s, id, op, ch).Some? && Plan(s, id, op, ch).value.next.Some?
    requires k.DeleteKey? || k.ThreadKey?
    ensures Holds(Plan(s, id, op, ch).value.next.value, k) ==> Holds(op, k)
  {
  }

  lemma PlanShrinksCall(s: State, id: nat, op: Op, ch: Choice, k: Key)
    requires Plan(s, id, op, ch).Some? && Plan(s, id, op, ch).value.next.Some?
    requires k.CallKey?
    ensures Holds(Plan(s, id, op, ch).value.next.value, k) ==> Holds(op, k)
  {
  }

  lemma PlanShrinksProfile(s: State, id: nat, op: Op, ch: Choice, k: Key)
    requires Plan(s, id, op, ch).Some? && Plan(s, id, op, ch).value.next.Some? && k.ProfileKey?
    ensures Holds(Plan(s, id, op, ch).value.next.value, k) ==> Holds(op, k)
  {
    hide Busy, IsOpen, PendingHandoff, Matches, ProperTargets, ProperKids, Gathered;
  }

  lemma PlanShrinksSession(s: State, id: nat, op: Op, ch: Choice, k: Key)
    requires Plan(s, id, op, ch).Some? && Plan(s, id, op, ch).value.next.Some? && k.SessionKey?
    ensures Holds(Plan(s, id, op, ch).value.next.value, k) ==> Holds(op, k)
  {
    hide Busy, IsOpen, PendingHandoff, Matches, ProperTargets, ProperKids, Gathered;
  }

  lemma PlanTask(s: State, id: nat, op: Op, ch: Choice)
    requires Plan(s, id, op, ch).Some? && Plan(s, id, op, ch).value.next.Some?
    ensures Plan(s, id, op, ch).value.next.value.task == op.task
  {
  }

  lemma PlanShrinks(s: State, id: nat, op: Op, ch: Choice)
    requires Plan(s, id, op, ch).Some? && Plan(s, id, op, ch).value.next.Some?
    ensures Plan(s, id, op, ch).value.next.value.task == op.task
    ensures Shrinks(Plan(s, id, op, ch).value.next.value, op)
  {
    hide Plan, Holds;
    PlanTask(s, id, op, ch);
    forall k | Holds(Plan(s, id, op, ch).value.next.value, k) ensures Holds(op, k) {
      if k.CallKey? {
        PlanShrinksCall(s, id, op, ch, k);
      } else if k.ProfileKey? {
        PlanShrinksProfile(s, id, op, ch, k);
      } else if k.SessionKey? {
        PlanShrinksSession(s, id, op, ch, k);
      } else {
        PlanShrinksLow(s, id, op, ch, k);
      }
    }
  }

  ghost predicate HoldsNothing(op: Op) {
    forall k :: !Holds(op, k)
  }

  lemma InitialHoldsNothing(task: Task)
    ensures HoldsNothing(Initial(task))
  {
    assert SeqSet([]) == {};
  }

  lemma AbortShrinks(op: Op, ch: Choice)
    ensures Abort(op, ch).next.Some? ==> HoldsNothing(Abort(op, ch).next.value)
  {
    if Abort(op, ch).next.Some? {
      InitialHoldsNothing(Abort(op, ch).next.value.task);
    }
  }

  lemma GrantAddsOne(op: Op)
    requires Wants(op).Some?
    ensures forall k :: Holds(Granted(op), k) ==> Holds(op, k) || k == Wants(op).value
  {
    if op.pc.Locking? {
      var targets, n := op.pc.targets, op.pc.n;
      assert targets[..n + 1] == targets[..n] + [targets[n]];
    }
  }

  /** Every operation after a step holds no more than it did, or is new and holds nothing. */
  ghost predicate NoNewLocks(s: State, s': State) {
    forall o :: o in s'.ops ==> (o in s.ops && Shrinks(s'.ops[o], s.ops[o])) || HoldsNothing(s'.ops[o])
  }

  lemma NoNewLocksKeeps(s: State, s': State)
    requires Mutex(s) && NoNewLocks(s, s')
    ensures Mutex(s')
  {
    hide Holds;
  }

  lemma OpsUntouched(s: State, e: Effect)
    requires !e.SpawnAll? && !e.FailParent?
    ensures ApplyEffect(s, e).ops == s.ops
  {
    hide Expired, Recorded, Kept, LifeOf, Matches;
  }

  lemma OpsFailed(s: State, d: nat)
    ensures ApplyEffect(s, FailParent(d)).ops.Keys == s.ops.Keys
    ensures forall o :: o in s.ops ==>
              ApplyEffect(s, FailParent(d)).ops[o] == s.ops[o] ||
              (o == d && s.ops[o].pc.Gathering?
                  && ApplyEffect(s, FailParent(d)).ops[o] == s.ops[o].(pc := GatherFailed(s.ops[o].pc.targets)))
  {
    if d in s.ops && s.ops[d].pc.Gathering? {
      var failed := s.ops[d].(pc := GatherFailed(s.ops[d].pc.targets));
      assert ApplyEffect(s, FailParent(d)) == s.(ops := s.ops[d := failed]);
    } else {
      assert ApplyEffect(s, FailParent(d)) == s;
    }
  }

  /** An effect leaves the operations alone, starts new ones, or notifies a parent. */
  lemma EffectOps(s: State, e: Effect)
    ensures !e.SpawnAll? && !e.FailParent? ==> ApplyEffect(s, e).ops == s.ops
    ensures e.SpawnAll? ==> ApplyEffect(s, e).ops == e.kids + s.ops
    ensures e.FailParent? ==> ApplyEffect(s, e).ops.Keys == s.ops.Keys
    ensures e.FailParent? ==> forall o :: o in s.ops ==>
              ApplyEffect(s, e).ops[o] == s.ops[o] ||
              (o == e.parent && s.ops[o].pc.Gathering?
                  && ApplyEffect(s, e).ops[o] == s.ops[o].(pc := GatherFailed(s.ops[o].pc.targets)))
  {
    if e.FailParent? {
      hide ApplyEffect;
      OpsFailed(s, e.parent);
    } else if !e.SpawnAll? {
      hide ApplyEffect;
      OpsUntouched(s, e);
    }
  }

  /** The operations after a move: its own, its new ones, and the others, which keep their locks. */
  lemma PerformOps(s: State, id: nat, m: Move)
    requires id in s.ops
    requires m.effect.SpawnAll? ==> forall k :: k in m.effect.kids ==>
        m.effect.kids[k] == Initial(m.effect.kids[k].task)
    requires m.next.Some? ==> Shrinks(m.next.value, s.ops[id]) || HoldsNothing(m.next.value)
    ensures NoNewLocks(s, Perform(s, id, m))
  {
    hide ApplyEffect, Initial;
    var s' := Perform(s, id, m);
    var s1 := s.(ops := match m.next case None => s.ops - {id} case Some(op) => s.ops[id := op]);
    EffectOps(s1, m.effect);
    forall o | o in s'.ops ensures (o in s.ops && Shrinks(s'.ops[o], s.ops[o])) || HoldsNothing(s'.ops[o]) {
      if m.effect.SpawnAll? && o in m.effect.kids && o !in s1.ops {
        InitialHoldsNothing(m.effect.kids[o].task);
      } else if m.effect.FailParent? && s'.ops[o] != s1.ops[o] {
        FailKeepsLocks(s1.ops[o], s'.ops[o]);
      }
    }
  }

  lemma FailKeepsLocks(op: Op, failed: Op)
    requires op.pc.Gathering? && failed == op.(pc := GatherFailed(op.pc.targets))
    ensures Shrinks(failed, op)
  {
  }

  lemma KidsInitial(s: State, id: nat, op: Op, ch: Choice)
    requires Plan(s, id, op, ch).Some? && Plan(s, id, op, ch).value.effect.SpawnAll?
    ensures op.task.DeleteThread? && ProperKids(s, id, op.task.thread, Plan(s, id, op, ch).value.effect.kids)
  {
  }

  lemma WorkKeepsMutex(s: State, s': State, id: nat, ch: Choice)
    requires Mutex(s) && Work(s, s', id, ch)
    ensures Mutex(s')
  {
    hide Plan, Perform, ApplyEffect, Holds;
    var m := Plan(s, id, s.ops[id], ch).value;
    if m.next.Some? {
      PlanShrinks(s, id, s.ops[id], ch);
    }
    if m.effect.SpawnAll? {
      KidsInitial(s, id, s.ops[id], ch);
    }
    PerformOps(s, id, m);
    NoNewLocksKeeps(s, s');
  }

  lemma AbortKeepsMutex(s: State, s': State, id: nat, ch: Choice)
    requires Mutex(s) && Aborts(s, s', id, ch)
    ensures Mutex(s')
  {
    hide Perform, ApplyEffect, Holds;
    AbortShrinks(s.ops[id], ch);
    PerformOps(s, id, Abort(s.ops[id], ch));
    NoNewLocksKeeps(s, s');
  }

  lemma GrantKeepsMutex(s: State, s': State, id: nat)
    requires Mutex(s) && Grant(s, s', id)
    ensures Mutex(s')
  {
    hide Holds, Granted, Wants;
    GrantAddsOne(s.ops[id]);
    forall a, b, k | a in s'.ops && b in s'.ops && Holds(s'.ops[a], k) && Holds(s'.ops[b], k) ensures a == b {
      if k != Wants(s.ops[id]).value {
        assert Holds(s.ops[a], k) && Holds(s.ops[b], k);
      }
    }
  }

  lemma SpawnKeepsMutex(s: State, s': State, id: nat, task: Task)
    requires Mutex(s) && Spawn(s, s', id, task)
    ensures Mutex(s')
  {
    hide Holds, Initial;
    InitialHoldsNothing(task);
    NoNewLocksKeeps(s, s');
  }

  lemma OutsideKeepsMutex(s: State, s': State, id: string, token: nat)
    requires Mutex(s) && (Outside(s, s', id, token) || s' == Crash(s))
    ensures Mutex(s')
  {
    hide Holds;
    NoNewLocksKeeps(s, s');
  }

  lemma NextKeepsMutex(s: State, s': State)
    requires Mutex(s) && Next(s, s')
    ensures Mutex(s')
  {
    hide Spawn, Grant, Work, Aborts, Outside, Crash, Mutex;
    if id, task :| Spawn(s, s', id, task) {
      SpawnKeepsMutex(s, s', id, task);
    } else if id :| Grant(s, s', id) {
      GrantKeepsMutex(s, s', id);
    } else if id, ch :| Work(s, s', id, ch) {
      WorkKeepsMutex(s, s', id, ch);
    } else if id, ch :| Aborts(s, s', id, ch) {
      AbortKeepsMutex(s, s', id, ch);
    } else if id, token :| Outside(s, s', id, token) {
      OutsideKeepsMutex(s, s', id, token);
    } else {
      OutsideKeepsMutex(s, s', "", 0);
    }
  }

  // ---------------------------------------------------------------- lock order

  /** Deletion locks come before thread locks, these, in string order, before invocation locks, these
      before profile locks, and these before session locks; waiting for closing tasks comes just before
      session locks. */
  datatype Level = Level(tier: nat, name: string)

  predicate Below(a: Level, b: Level) {
    a.tier < b.tier || (a.tier == b.tier && Before(a.name, b.name))
  }

  lemma BelowTransitive(a: Level, b: Level, c: Level)
    requires Below(a, b) && Below(b, c)
    ensures Below(a, c)
  {
    if a.tier == b.tier == c.tier {
      BeforeTransitive(a.name, b.name, c.name);
    }
  }

  lemma BelowIrreflexive(a: Level)
    ensures !Below(a, a)
  {
    BeforeIrreflexive(a.name);
  }

  function LevelOf(k: Key): Level {
    match k
    case DeleteKey(_) => Level(0, "")
    case ThreadKey(t) => Level(1, t)
    case CallKey(_, _) => Level(2, "")
    case ProfileKey(_) => Level(3, "")
    case SessionKey(_) => Level(5, "")
  }

  /** The operation waits for a lock, or for the closing tasks that it started. */
  predicate Waiting(s: State, id: nat)
    requires id in s.ops
  {
    Wants(s.ops[id]).Some? || (s.ops[id].pc.Gathering? && !Gathered(s, id))
  }

  function WaitLevel(op: Op): Level {
    if Wants(op).Some? then LevelOf(Wants(op).value) else Level(4, "")
  }

  /** An operation's own fields make sense together: each program counter belongs to its tasks, and a
      deletion's targets are in increasing order. */
  ghost predicate WellFormed(op: Op) {
    DeleteShape(op) && TaskShape(op)
  }

  ghost predicate DeleteShape(op: Op) {
    && (DeletePc(op.pc) <==> op.task.DeleteThread?)
    && Increasing(PcTargets(op.pc))
    && (op.pc.Locking? ==> op.pc.n <= |op.pc.targets|)
  }

  ghost predicate TaskShape(op: Op) {
    && (op.task.DeleteProfile? ==> op.pc.AtProfile? || op.pc.HaveProfile? || op.pc.Removing?)
    && (op.task.CloseOne? ==>
        op.pc == AtSession(op.task.gen, ToClose) || op.pc == HaveSession(op.task.gen, ToClose)
        || op.pc == Disposing(op.task.gen, ToClose))
    && (op.task.Finishing? ==> op.pc == Unwatched(op.task.gen))
    && (op.task.Release? ==> op.pc.AtThread? || op.pc.Entering? || op.pc.Closing? || ClosesSession(op.pc))
    && (op.pc.AtThread? ==> ThreadOf(op.task).Some?)
    && (op.pc.Removing? ==> op.task.DeleteProfile?)
    && (op.pc.AtCall? ==> HasCall(op.task))
  }

  predicate ClosesSession(pc: Pc) {
    (pc.AtSession? || pc.HaveSession? || pc.Disposing?) && pc.why.ToClose?
  }

  predicate DeletePc(pc: Pc) {
    pc.AtDelete? || pc.Marking? || pc.Marked? || pc.Locking? || pc.Gathering? || pc.GatherFailed? || pc.Purging?
        || pc.Unmarking?
  }

  function PcTargets(pc: Pc): seq<string> {
    match pc
    case Locking(targets, _) => targets
    case Gathering(targets) => targets
    case GatherFailed(targets) => targets
    case Purging(targets) => targets
    case Unmarking(targets) => targets
    case _ => []
  }

  ghost predicate Increasing(targets: seq<string>) {
    forall i, j :: 0 <= i < j < |targets| ==> Before(targets[i], targets[j])
  }

  ghost predicate AllWellFormed(s: State) {
    forall o :: o in s.ops ==> WellFormed(s.ops[o])
  }

  /** Program counters up to the decision for a session, and those after it. */
  predicate EarlyPc(pc: Pc) {
    || pc.Entering? || pc.InThread? || pc.Replay? || pc.Recording? || pc.Closing? || pc.CloseRecord? || pc.Expiring?
    || pc.Reading? || pc.Looking? || pc.Visited? || pc.Selecting?
  }

  lemma EarlyStaysOutside(s: State, id: nat, op: Op, ch: Choice)
    requires EarlyPc(op.pc) && Plan(s, id, op, ch).Some? && Plan(s, id, op, ch).value.next.Some?
    ensures !DeletePc(Plan(s, id, op, ch).value.next.value.pc)
  {
    hide Busy, IsOpen, PendingHandoff, Matches;
  }

  lemma LateStaysOutside(s: State, id: nat, op: Op, ch: Choice)
    requires !EarlyPc(op.pc) && !DeletePc(op.pc) && Plan(s, id, op, ch).Some? && Plan(s, id, op, ch).value.next.Some?
    ensures !DeletePc(Plan(s, id, op, ch).value.next.value.pc)
  {
    hide Busy, IsOpen, PendingHandoff, Matches;
  }

  lemma PlanStaysOutside(s: State, id: nat, op: Op, ch: Choice)
    requires !DeletePc(op.pc) && Plan(s, id, op, ch).Some? && Plan(s, id, op, ch).value.next.Some?
    ensures !DeletePc(Plan(s, id, op, ch).value.next.value.pc)
  {
    hide Plan, DeletePc;
    if EarlyPc(op.pc) {
      EarlyStaysOutside(s, id, op, ch);
    } else {
      LateStaysOutside(s, id, op, ch);
    }
  }

  lemma PlanDeleteShape(s: State, id: nat, op: Op, ch: Choice)
    requires DeleteShape(op) && Plan(s, id, op, ch).Some? && Plan(s, id, op, ch).value.next.Some?
    ensures DeleteShape(Plan(s, id, op, ch).value.next.value)
  {
    if DeletePc(op.pc) {
      hide PlanEntering, PlanInThread, PlanExpiring, PlanHaveProfile, PlanHaveSession, PlanDisposing, Matches, Before;
    } else {
      hide Plan;
      PlanTask(s, id, op, ch);
      PlanStaysOutside(s, id, op, ch);
    }
  }

  lemma EarlyTaskShape(s: State, id: nat, op: Op, ch: Choice)
    requires EarlyPc(op.pc) && TaskShape(op) && Plan(s, id, op, ch).Some? && Plan(s, id, op, ch).value.next.Some?
    ensures TaskShape(Plan(s, id, op, ch).value.next.value)
  {
    hide Busy, IsOpen, PendingHandoff, Matches;
  }

  predicate ProfilePc(pc: Pc) {
    pc.HaveProfile? || pc.Launching? || pc.Removing?
  }

  lemma ProfileTaskShape(s: State, id: nat, op: Op, ch: Choice)
    requires ProfilePc(op.pc) && TaskShape(op) && Plan(s, id, op, ch).Some? && Plan(s, id, op, ch).value.next.Some?
    ensures TaskShape(Plan(s, id, op, ch).value.next.value)
  {
    hide Busy, IsOpen, PendingHandoff, Matches;
  }

  lemma LateTaskShape(s: State, id: nat, op: Op, ch: Choice)
    requires !EarlyPc(op.pc) && !ProfilePc(op.pc)
    requires TaskShape(op) && Plan(s, id, op, ch).Some? && Plan(s, id, op, ch).value.next.Some?
    ensures TaskShape(Plan(s, id, op, ch).value.next.value)
  {
    hide Busy, IsOpen, PendingHandoff, Matches, ProperTargets, ProperKids, Gathered;
  }

  lemma PlanTaskShape(s: State, id: nat, op: Op, ch: Choice)
    requires TaskShape(op) && Plan(s, id, op, ch).Some? && Plan(s, id, op, ch).value.next.Some?
    ensures TaskShape(Plan(s, id, op, ch).value.next.value)
  {
    hide Plan, TaskShape;
    if EarlyPc(op.pc) {
      EarlyTaskShape(s, id, op, ch);
    } else if ProfilePc(op.pc) {
      ProfileTaskShape(s, id, op, ch);
    } else {
      LateTaskShape(s, id, op, ch);
    }
  }

  /** Every lock is requested above all those held: no operation ever waits against the order. */
  lemma LockOrder(op: Op, k: Key)
    requires WellFormed(op) && (Wants(op).Some? || op.pc.Gathering?) && Holds(op, k)
    ensures Below(LevelOf(k), WaitLevel(op))
  {
    if op.pc.Locking? && k.ThreadKey? {
      assert k.thread in op.pc.targets[..op.pc.n];
    }
  }

  lemma PlanWellFormed(s: State, id: nat, op: Op, ch: Choice)
    requires WellFormed(op) && Plan(s, id, op, ch).Some? && Plan(s, id, op, ch).value.next.Some?
    ensures WellFormed(Plan(s, id, op, ch).value.next.value)
  {
    hide Plan, DeleteShape, TaskShape;
    PlanDeleteShape(s, id, op, ch);
    PlanTaskShape(s, id, op, ch);
  }

  lemma WorkKeepsWellFormed(s: State, s': State, id: nat, ch: Choice)
    requires AllWellFormed(s) && Work(s, s', id, ch)
    ensures AllWellFormed(s')
  {
    hide Plan, Perform, WellFormed;
    var m := Plan(s, id, s.ops[id], ch).value;
    if m.next.Some? {
      PlanWellFormed(s, id, s.ops[id], ch);
    }
    if m.effect.SpawnAll? {
      KidsInitial(s, id, s.ops[id], ch);
    }
    PerformWellFormed(s, id, m);
  }

  lemma AbortKeepsWellFormed(s: State, s': State, id: nat, ch: Choice)
    requires AllWellFormed(s) && Aborts(s, s', id, ch)
    ensures AllWellFormed(s')
  {
    hide Abort, Perform, WellFormed;
    AbortWellFormed(s.ops[id], ch);
    PerformWellFormed(s, id, Abort(s.ops[id], ch));
  }

  lemma SpawnKeepsWellFormed(s: State, s': State, id: nat, task: Task)
    requires AllWellFormed(s) && Spawn(s, s', id, task)
    ensures AllWellFormed(s')
  {
    hide Initial, WellFormed;
    InitialWellFormed(task);
  }

  lemma GrantKeepsWellFormed(s: State, s': State, id: nat)
    requires AllWellFormed(s) && Grant(s, s', id)
    ensures AllWellFormed(s')
  {
    hide Wants, Granted, WellFormed, Holds;
    GrantedWellFormed(s.ops[id]);
  }

  lemma OutsideKeepsWellFormed(s: State, s': State, id: string, token: nat)
    requires AllWellFormed(s) && (Outside(s, s', id, token) || s' == Crash(s))
    ensures AllWellFormed(s')
  {
    hide WellFormed;
  }

  lemma NextKeepsWellFormed(s: State, s': State)
    requires AllWellFormed(s) && Next(s, s')
    ensures AllWellFormed(s')
  {
    hide Spawn, Grant, Work, Aborts, Outside, Crash, AllWellFormed;
    if id, task :| Spawn(s, s', id, task) {
      SpawnKeepsWellFormed(s, s', id, task);
    } else if id :| Grant(s, s', id) {
      GrantKeepsWellFormed(s, s', id);
    } else if id, ch :| Work(s, s', id, ch) {
      WorkKeepsWellFormed(s, s', id, ch);
    } else if id, ch :| Aborts(s, s', id, ch) {
      AbortKeepsWellFormed(s, s', id, ch);
    } else if id, token :| Outside(s, s', id, token) {
      OutsideKeepsWellFormed(s, s', id, token);
    } else {
      OutsideKeepsWellFormed(s, s', "", 0);
    }
  }

  lemma InitialWellFormed(task: Task)
    ensures WellFormed(Initial(task))
  {
  }

  lemma GrantedWellFormed(op: Op)
    requires WellFormed(op) && Wants(op).Some?
    ensures WellFormed(Granted(op))
  {
  }

  lemma AbortWellFormed(op: Op, ch: Choice)
    ensures Abort(op, ch).next.Some? ==> WellFormed(Abort(op, ch).next.value)
    ensures !Abort(op, ch).effect.SpawnAll?
  {
  }

  lemma PerformWellFormed(s: State, id: nat, m: Move)
    requires AllWellFormed(s) && id in s.ops
    requires m.next.Some? ==> WellFormed(m.next.value)
    requires m.effect.SpawnAll? ==> forall k :: k in m.effect.kids ==>
        m.effect.kids[k] == Initial(m.effect.kids[k].task)
    ensures AllWellFormed(Perform(s, id, m))
  {
    hide ApplyEffect, Initial, DeleteShape, TaskShape;
    var s' := Perform(s, id, m);
    var s1 := s.(ops := match m.next case None => s.ops - {id} case Some(op) => s.ops[id := op]);
    EffectOps(s1, m.effect);
    forall o | o in s'.ops ensures WellFormed(s'.ops[o]) {
      if m.effect.SpawnAll? && o in m.effect.kids && o !in s1.ops {
        InitialWellFormed(m.effect.kids[o].task);
      } else if m.effect.FailParent? && s'.ops[o] != s1.ops[o] {
        FailedWellFormed(s1.ops[o]);
      }
    }
  }

  lemma FailedWellFormed(op: Op)
    requires WellFormed(op) && op.pc.Gathering?
    ensures WellFormed(op.(pc := GatherFailed(op.pc.targets)))
  {
  }

  // ---------------------------------------------------------------- freedom from deadlock

  /** Operation `a` waits for operation `b`. */
  ghost predicate WaitsFor(s: State, a: nat, b: nat) {
    && a in s.ops && b in s.ops
    && ((Wants(s.ops[a]).Some? && Holds(s.ops[b], Wants(s.ops[a]).value))
        || (s.ops[a].pc.Gathering? && s.ops[b].task.CloseOne? && s.ops[b].task.parent == a))
  }

  /** Waiting goes up the lock order, so the wait-for graph has no cycle. */
  lemma WaitingGoesUp(s: State, a: nat, b: nat)
    requires AllWellFormed(s) && WaitsFor(s, a, b) && Waiting(s, b)
    ensures Below(WaitLevel(s.ops[a]), WaitLevel(s.ops[b]))
  {
    hide Holds, Gathered, DeleteShape;
    if Wants(s.ops[a]).Some? && Holds(s.ops[b], Wants(s.ops[a]).value) {
      LockOrder(s.ops[b], Wants(s.ops[a]).value);
    } else {
      assert WellFormed(s.ops[b]);
    }
  }

  /** The operation can take its next step without anybody else: it runs or awaits the outside world, or
      the lock that it waits for is free. */
  ghost predicate CanProceed(s: State, a: nat)
    requires a in s.ops
  {
    !Waiting(s, a) || (Wants(s.ops[a]).Some? && Free(s, Wants(s.ops[a]).value))
  }

  lemma SomebodyBlocks(s: State, a: nat) returns (b: nat)
    requires a in s.ops && !CanProceed(s, a)
    ensures WaitsFor(s, a, b)
  {
    if Wants(s.ops[a]).Some? {
      b :| b in s.ops && Holds(s.ops[b], Wants(s.ops[a]).value);
    } else {
      b :| b in s.ops && s.ops[b].task.CloseOne? && s.ops[b].task.parent == a;
    }
  }

  ghost function Above(s: State, a: nat): set<nat>
    requires a in s.ops
  {
    set o | o in s.ops && Below(WaitLevel(s.ops[a]), WaitLevel(s.ops[o]))
  }

  ghost predicate WaitChain(s: State, chain: seq<nat>) {
    && chain != [] && (forall i :: 0 <= i < |chain| ==> chain[i] in s.ops)
    && forall i :: 0 < i < |chain| ==> WaitsFor(s, chain[i - 1], chain[i])
  }

  /** Whoever an operation waits for, directly or not, some one of them can proceed: there is no
      deadlock. */
  lemma {:induction false} NoDeadlock(s: State, a: nat) returns (chain: seq<nat>)
    requires AllWellFormed(s) && a in s.ops
    ensures WaitChain(s, chain) && chain[0] == a && CanProceed(s, chain[|chain| - 1])
    decreases |Above(s, a)|
  {
    hide WellFormed, Holds, Wants, WaitLevel;
    if CanProceed(s, a) {
      return [a];
    }
    var b := SomebodyBlocks(s, a);
    if CanProceed(s, b) {
      return [a, b];
    }
    WaitingGoesUp(s, a, b);
    AboveShrinks(s, a, b);
    var rest := NoDeadlock(s, b);
    return [a] + rest;
  }

  lemma AboveShrinks(s: State, a: nat, b: nat)
    requires a in s.ops && b in s.ops && Below(WaitLevel(s.ops[a]), WaitLevel(s.ops[b]))
    ensures |Above(s, b)| < |Above(s, a)|
  {
    hide WaitLevel, Below;
    forall o | o in Above(s, b) ensures o in Above(s, a) {
      BelowTransitive(WaitLevel(s.ops[a]), WaitLevel(s.ops[b]), WaitLevel(s.ops[o]));
    }
    BelowIrreflexive(WaitLevel(s.ops[b]));
    ProperSubsetSize(Above(s, b), Above(s, a), b);
  }

  lemma ProperSubsetSize(x: set<nat>, y: set<nat>, e: nat)
    requires x <= y && e in y && e !in x
    ensures |x| < |y|
  {
    SubsetSize(x, y - {e});
  }

  ghost predicate LocksOk(s: State) {
    Mutex(s) && AllWellFormed(s)
  }

  /** Every reachable state has exclusive locks, and every operation in it waits, if at all, for one that
      can proceed. */
  lemma {:induction false} RunLocksOk(run: seq<State>, i: nat)
    requires Run(run) && i < |run|
    ensures LocksOk(run[i])
  {
    hide Next;
    if i > 0 {
      RunLocksOk(run, i - 1);
      NextKeepsMutex(run[i - 1], run[i]);
      NextKeepsWellFormed(run[i - 1], run[i]);
    }
  }

  lemma RunNeverDeadlocks(run: seq<State>, i: nat, a: nat) returns (chain: seq<nat>)
    requires Run(run) && i < |run| && a in run[i].ops
    ensures WaitChain(run[i], chain) && chain[0] == a && CanProceed(run[i], chain[|chain| - 1])
  {
    RunLocksOk(run, i);
    chain := NoDeadlock(run[i], a);
  }
}
