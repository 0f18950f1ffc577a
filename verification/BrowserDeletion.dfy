/** Deleting a conversation: it drains its threads, keeps them empty, and leaves nothing behind. */
module BrowserDeletion {
  import opened Prelude
  import opened BrowserModel
  import opened BrowserLocks

  // ---------------------------------------------------------------- what each move may do

  /** A deletion that has marked its thread. */
  predicate Past(op: Op) {
    op.task.DeleteThread? && !op.pc.AtDelete? && !op.pc.Marking?
  }

  predicate Knows(op: Op) {
    op.task.DeleteThread?
        && (op.pc.Locking? || op.pc.Gathering? || op.pc.GatherFailed? || op.pc.Purging? || op.pc.Unmarking?)
  }

  predicate InsideOf(op: Op, t: string) {
    Inside(op) && ThreadOf(op.task) == Some(t)
  }

  /** An operation enters a scope only by the check that no deletion covers its thread. */
  ghost predicate EntersLawfully(s: State, op: Op, m: Move) {
    m.next.Some? && Inside(m.next.value) && !Inside(op) ==>
      && op.pc.Entering? && m.next.value.task == op.task
      && forall target :: target in s.deleting ==> !Matches(ThreadOf(op.task).value, target)
  }

  /** A thread's own data changes inside its scope only, and a deletion goes through its stages in order. */
  ghost predicate ActsLawfully(s: State, id: nat, op: Op, m: Move) {
    match m.effect
    case WriteRow(c, _) => InsideOf(op, c.thread)
    case Complete(c, _) => InsideOf(op, c.thread)
    case Answer(c, _) => InsideOf(op, c.thread)
    case Start(c) => InsideOf(op, c.thread)
    case ExpireRows(t, _) => InsideOf(op, t)
    case Insert(t, _, _) => InsideOf(op, t)
    case Bind(t, _) => InsideOf(op, t)
    case IssueTicket(_, t, _) => InsideOf(op, t)
    case Mark(t) => op.task == DeleteThread(t) && m.next == Some(Op(op.task, Marked))
    case Unmark(t) => op.task == DeleteThread(t) && Past(op)
    case SpawnAll(kids) => op.task.DeleteThread? && op.pc.Locking? && op.pc.n == |op.pc.targets|
        && ProperKids(s, id, op.task.thread, kids)
    case DropTickets(t) => op.task == DeleteThread(t) && op.pc.Gathering? && Gathered(s, id)
    case Commit(t) => op.task == DeleteThread(t) && op.pc.Purging?
    case FailParent(d) => op.task.CloseOne? && op.task.parent == d && m.next.None?
    case _ => true
  }

  /** The stages of a deletion. */
  ghost predicate StagesLawfully(s: State, op: Op, m: Move) {
    m.next.Some? && m.next.value.task.DeleteThread? ==>
      && m.next.value.task == op.task
      && match m.next.value.pc
         case Marked => m.effect == Mark(op.task.thread)
         case Locking(targets, n) => n == 0 && op.pc.Marked? && m.effect.Nothing?
             && ProperTargets(s, op.task.thread, targets)
         case Gathering(targets) => op.pc == Locking(targets, |targets|) && m.effect.SpawnAll?
         case Purging(targets) => op.pc == Gathering(targets) && m.effect == DropTickets(op.task.thread)
         case Unmarking(targets) => op.pc == Purging(targets) && m.effect == Commit(op.task.thread)
         case _ => false
  }

  /** A closing task ends by unregistering its session, or by failing the deletion. */
  ghost predicate ClosesLawfully(op: Op, m: Move) {
    op.task.CloseOne? ==>
      if m.next.Some? then m.next.value.task == op.task
      else m.effect == Pop(op.task.gen) || m.effect == FailParent(op.task.parent)
  }

  ghost predicate Lawful(s: State, id: nat, op: Op, m: Move) {
    EntersLawfully(s, op, m) && ActsLawfully(s, id, op, m) && StagesLawfully(s, op, m) && ClosesLawfully(op, m)
  }

  lemma PlanEnters(s: State, id: nat, op: Op, ch: Choice)
    requires Plan(s, id, op, ch).Some?
    ensures EntersLawfully(s, op, Plan(s, id, op, ch).value)
  {
    if op.pc.Entering? {
      hide Matches;
    } else if ThreadOf(op.task).None? || op.pc.AtThread? {
      hide Matches;
      if Plan(s, id, op, ch).value.next.Some? {
        hide Plan;
        PlanTask(s, id, op, ch);
      }
    } else {
      hide Plan;
      if Plan(s, id, op, ch).value.next.Some? {
        PlanTask(s, id, op, ch);
      }
    }
  }

  lemma EarlyActs(s: State, id: nat, op: Op, ch: Choice)
    requires EarlyPc(op.pc) && TaskShape(op) && Plan(s, id, op, ch).Some?
    ensures ActsLawfully(s, id, op, Plan(s, id, op, ch).value)
  {
    hide Matches, ProperKids, Gathered, Busy, IsOpen, PendingHandoff;
  }

  lemma LateActs(s: State, id: nat, op: Op, ch: Choice)
    requires !EarlyPc(op.pc) && !DeletePc(op.pc) && TaskShape(op) && Plan(s, id, op, ch).Some?
    ensures ActsLawfully(s, id, op, Plan(s, id, op, ch).value)
  {
    hide Matches, ProperKids, ProperTargets, Gathered, Busy, IsOpen, PendingHandoff;
  }

  lemma DeletionPlan(s: State, id: nat, op: Op, ch: Choice)
    requires DeletePc(op.pc) && Plan(s, id, op, ch).Some?
    ensures Plan(s, id, op, ch) == PlanDelete(s, id, op, ch)
  {
    hide PlanDelete;
  }

  lemma DeletionActs(s: State, id: nat, op: Op, ch: Choice)
    requires DeletePc(op.pc) && Plan(s, id, op, ch).Some?
    ensures ActsLawfully(s, id, op, Plan(s, id, op, ch).value)
  {
    hide Plan, ProperKids, ProperTargets, Gathered;
    DeletionPlan(s, id, op, ch);
  }

  lemma PlanActs(s: State, id: nat, op: Op, ch: Choice)
    requires WellFormed(op) && Plan(s, id, op, ch).Some?
    ensures ActsLawfully(s, id, op, Plan(s, id, op, ch).value)
  {
    hide Plan, ActsLawfully, DeleteShape, TaskShape;
    if EarlyPc(op.pc) {
      EarlyActs(s, id, op, ch);
    } else if DeletePc(op.pc) {
      DeletionActs(s, id, op, ch);
    } else {
      LateActs(s, id, op, ch);
    }
  }

  lemma DeletionStages(s: State, id: nat, op: Op, ch: Choice)
    requires DeletePc(op.pc) && DeleteShape(op) && Plan(s, id, op, ch).Some?
    ensures StagesLawfully(s, op, Plan(s, id, op, ch).value)
  {
    hide Plan, ProperKids, ProperTargets, Gathered, Increasing;
    DeletionPlan(s, id, op, ch);
  }

  lemma PlanStages(s: State, id: nat, op: Op, ch: Choice)
    requires WellFormed(op) && Plan(s, id, op, ch).Some?
    ensures StagesLawfully(s, op, Plan(s, id, op, ch).value)
  {
    hide Plan, TaskShape, Increasing, ProperTargets;
    if DeletePc(op.pc) {
      DeletionStages(s, id, op, ch);
    } else if Plan(s, id, op, ch).value.next.Some? {
      PlanTask(s, id, op, ch);
    }
  }

  lemma PlanCloses(s: State, id: nat, op: Op, ch: Choice)
    requires WellFormed(op) && Plan(s, id, op, ch).Some?
    ensures ClosesLawfully(op, Plan(s, id, op, ch).value)
  {
    hide DeleteShape;
  }

  lemma PlanLawful(s: State, id: nat, op: Op, ch: Choice)
    requires WellFormed(op) && Plan(s, id, op, ch).Some?
    ensures Lawful(s, id, op, Plan(s, id, op, ch).value)
  {
    hide Plan, WellFormed;
    PlanEnters(s, id, op, ch);
    PlanActs(s, id, op, ch);
    PlanStages(s, id, op, ch);
    PlanCloses(s, id, op, ch);
  }

  lemma AbortLawful(s: State, id: nat, op: Op, ch: Choice)
    requires WellFormed(op)
    ensures Lawful(s, id, op, Abort(op, ch))
  {
  }

  // ---------------------------------------------------------------- invariants

  /** The mark stands for as long as the deletion runs. */
  ghost predicate MarkStands(s: State, d: nat)
    requires d in s.ops
  {
    Past(s.ops[d]) ==> s.ops[d].task.thread in s.deleting
  }

  /** A deletion's targets include every thread that it covers and that is in use or has a session. */
  ghost predicate KnowsAll(s: State, d: nat)
    requires d in s.ops
  {
    Knows(s.ops[d]) ==>
      && (forall o, t :: o in s.ops && InsideOf(s.ops[o], t) && Matches(t, s.ops[d].task.thread) ==>
          t in PcTargets(s.ops[d].pc))
      && (forall t :: t in s.sessions && Matches(t, s.ops[d].task.thread) ==> t in PcTargets(s.ops[d].pc))
  }

  ghost predicate HasCloser(s: State, d: nat, g: nat) {
    exists k :: k in s.ops && s.ops[k].task == CloseOne(g, d)
  }

  /** While a deletion gathers, every session that it covers still has its closing task. */
  ghost predicate Covers(s: State, d: nat)
    requires d in s.ops
  {
    s.ops[d].task.DeleteThread? && s.ops[d].pc.Gathering? ==>
      forall t :: t in s.sessions && Matches(t, s.ops[d].task.thread) ==> HasCloser(s, d, s.sessions[t])
  }

  ghost predicate NoSessions(s: State, thread: string) {
    && (forall t :: t in s.sessions ==> !Matches(t, thread))
    && (forall k :: k in s.tickets ==> !Matches(s.tickets[k].0, thread))
  }

  ghost predicate NoRecords(s: State, thread: string) {
    && (forall c :: c in s.journal ==> !Matches(c.thread, thread))
    && (forall t :: t in s.bindings ==> !Matches(t, thread))
  }

  /** After gathering, no session and no ticket is left; after the commit, no row. */
  ghost predicate Emptied(s: State, d: nat)
    requires d in s.ops
  {
    s.ops[d].task.DeleteThread? ==>
      && (s.ops[d].pc.Purging? || s.ops[d].pc.Unmarking? ==> NoSessions(s, s.ops[d].task.thread))
      && (s.ops[d].pc.Unmarking? ==> NoRecords(s, s.ops[d].task.thread))
  }

  ghost predicate DeletionOk(s: State) {
    forall d :: d in s.ops ==> MarkStands(s, d) && KnowsAll(s, d) && Covers(s, d) && Emptied(s, d)
  }

  /** The deletion holds all its thread locks. */
  predicate HoldsTargets(op: Op) {
    Knows(op) && (op.pc.Locking? ==> op.pc.n == |op.pc.targets|)
  }

  /** No operation is inside the scope of a thread that the deletion covers. */
  ghost predicate Drained(s: State, thread: string) {
    forall o, t :: o in s.ops && InsideOf(s.ops[o], t) ==> !Matches(t, thread)
  }

  lemma TargetsExclude(op: Op, d: Op, t: string)
    requires HoldsTargets(d) && t in PcTargets(d.pc) && InsideOf(op, t)
    ensures Holds(op, ThreadKey(t)) && Holds(d, ThreadKey(t))
  {
    if d.pc.Locking? {
      assert d.pc.targets[..d.pc.n] == d.pc.targets;
    }
  }

  lemma HoldingDrains(s: State, d: nat)
    requires Mutex(s) && d in s.ops && KnowsAll(s, d) && HoldsTargets(s.ops[d])
    ensures Drained(s, s.ops[d].task.thread)
  {
    hide Holds, Matches, InsideOf;
    forall o, t | o in s.ops && InsideOf(s.ops[o], t) ensures !Matches(t, s.ops[d].task.thread) {
      if Matches(t, s.ops[d].task.thread) {
        DeletionNotInside(s.ops[d], t);
        TargetsExclude(s.ops[o], s.ops[d], t);
      }
    }
  }

  lemma DeletionNotInside(op: Op, t: string)
    requires op.task.DeleteThread?
    ensures !InsideOf(op, t)
  {
  }

  // ---------------------------------------------------------------- what a move changes

  /** Where the operations of the state after a move come from. */
  ghost predicate Comes(s: State, id: nat, m: Move, o: nat, op: Op) {
    || (o != id && o in s.ops && op == s.ops[o])
    || (o == id && m.next == Some(op))
    || (m.effect.SpawnAll? && o in m.effect.kids && o !in s.ops && op == m.effect.kids[o])
    || (m.effect == FailParent(o) && o != id && o in s.ops && s.ops[o].pc.Gathering?
        && op == s.ops[o].(pc := GatherFailed(s.ops[o].pc.targets)))
  }

  lemma OpsAfter(s: State, id: nat, m: Move)
    requires id in s.ops && (m.effect.FailParent? ==> m.next.None?)
    requires m.effect.SpawnAll? ==> forall k :: k in m.effect.kids ==> k !in s.ops
    ensures forall o :: o in Perform(s, id, m).ops ==> Comes(s, id, m, o, Perform(s, id, m).ops[o])
    ensures forall o :: o in s.ops && o != id ==>
        o in Perform(s, id, m).ops && Perform(s, id, m).ops[o].task == s.ops[o].task
    ensures m.next.Some? ==> id in Perform(s, id, m).ops
    ensures m.effect.SpawnAll? ==> forall k :: k in m.effect.kids && k !in s.ops ==>
        k in Perform(s, id, m).ops && Perform(s, id, m).ops[k] == m.effect.kids[k]
    ensures m.effect.FailParent? && m.effect.parent in s.ops && m.effect.parent != id ==>
        !Perform(s, id, m).ops[m.effect.parent].pc.Gathering?
  {
    hide ApplyEffect;
    var s1 := s.(ops := match m.next case None => s.ops - {id} case Some(op) => s.ops[id := op]);
    var s' := Perform(s, id, m);
    EffectOps(s1, m.effect);
    if m.effect.FailParent? {
      FailStops(s1, m.effect.parent);
    }
    forall o | o in s.ops && o != id ensures o in s'.ops && s'.ops[o].task == s.ops[o].task {
      assert o in s1.ops && s1.ops[o] == s.ops[o];
    }
  }

  lemma FailStops(s: State, d: nat)
    ensures d in s.ops ==> !ApplyEffect(s, FailParent(d)).ops[d].pc.Gathering?
  {
  }

  predicate OnRows(e: Effect) {
    e.WriteRow? || e.Complete? || e.Answer? || e.ExpireRows? || e.Start?
  }

  predicate OnSessions(e: Effect) {
    e.Insert? || e.MarkClosed? || e.SetHuman? || e.Pop?
  }

  lemma RowsOnly(s: State, e: Effect)
    requires OnRows(e)
    ensures var s' := ApplyEffect(s, e);
            && s'.sessions == s.sessions && s'.tickets == s.tickets && s'.deleting == s.deleting
            && s'.bindings == s.bindings && s'.deletions == s.deletions
  {
    hide Expired, Recorded, LifeOf;
  }

  lemma SessionsOnly(s: State, e: Effect)
    requires OnSessions(e)
    ensures var s' := ApplyEffect(s, e);
            && s'.tickets == s.tickets && s'.deleting == s.deleting && s'.bindings == s.bindings
            && s'.deletions == s.deletions && s'.journal == s.journal
    ensures e.MarkClosed? || e.SetHuman? ==> ApplyEffect(s, e).sessions == s.sessions
  {
  }

  lemma RestOnly(s: State, e: Effect)
    requires !OnRows(e) && !OnSessions(e)
    ensures ApplyEffect(s, e).sessions == s.sessions
    ensures !e.IssueTicket? && !e.DropTickets? ==> ApplyEffect(s, e).tickets == s.tickets
    ensures !e.Mark? && !e.Unmark? ==> ApplyEffect(s, e).deleting == s.deleting
    ensures !e.Commit? ==> ApplyEffect(s, e).deletions == s.deletions && ApplyEffect(s, e).journal == s.journal
    ensures !e.Bind? && !e.DropProfile? && !e.Commit? ==> ApplyEffect(s, e).bindings == s.bindings
  {
    hide Kept, Matches;
  }

  lemma SessionsUntouched(s: State, e: Effect)
    requires !e.Insert? && !e.Pop?
    ensures ApplyEffect(s, e).sessions == s.sessions
  {
    hide ApplyEffect;
    EffectParts(s, e);
  }

  lemma EffectParts(s: State, e: Effect)
    ensures var s' := ApplyEffect(s, e);
            && (!e.Insert? && !e.Pop? ==> s'.sessions == s.sessions)
            && (!e.IssueTicket? && !e.DropTickets? ==> s'.tickets == s.tickets)
            && (!e.Mark? && !e.Unmark? ==> s'.deleting == s.deleting)
            && (!e.Commit? ==> s'.deletions == s.deletions)
            && (!e.WriteRow? && !e.Complete? && !e.ExpireRows? && !e.Commit? ==> s'.journal == s.journal)
            && (!e.Bind? && !e.DropProfile? && !e.Commit? ==> s'.bindings == s.bindings)
  {
    if OnRows(e) {
      RowsOnly(s, e);
      if !e.WriteRow? && !e.Complete? && !e.ExpireRows? {
        hide Era;
      } else {
        hide ApplyEffect;
      }
    } else {
      hide ApplyEffect;
      if OnSessions(e) {
        SessionsOnly(s, e);
      } else {
        RestOnly(s, e);
      }
    }
  }

  lemma TicketsUntouched(s: State, e: Effect)
    requires !e.IssueTicket? && !e.DropTickets?
    ensures ApplyEffect(s, e).tickets == s.tickets
  {
    hide ApplyEffect;
    EffectParts(s, e);
  }

  lemma MarksUntouched(s: State, e: Effect)
    ensures !e.Mark? && !e.Unmark? ==> ApplyEffect(s, e).deleting == s.deleting
    ensures !e.Commit? ==> ApplyEffect(s, e).deletions == s.deletions
  {
    hide ApplyEffect;
    EffectParts(s, e);
  }

  lemma Untouched(s: State, e: Effect)
    ensures !e.Insert? && !e.Pop? ==> ApplyEffect(s, e).sessions == s.sessions
    ensures !e.IssueTicket? && !e.DropTickets? ==> ApplyEffect(s, e).tickets == s.tickets
    ensures !e.Mark? && !e.Unmark? ==> ApplyEffect(s, e).deleting == s.deleting
    ensures !e.Commit? ==> ApplyEffect(s, e).deletions == s.deletions
  {
    hide ApplyEffect;
    MarksUntouched(s, e);
    if !e.Insert? && !e.Pop? {
      SessionsUntouched(s, e);
    }
    if !e.IssueTicket? && !e.DropTickets? {
      TicketsUntouched(s, e);
    }
  }

  lemma JournalUntouched(s: State, e: Effect)
    requires !e.WriteRow? && !e.Complete? && !e.ExpireRows? && !e.Commit?
    ensures ApplyEffect(s, e).journal == s.journal
  {
    hide ApplyEffect;
    EffectParts(s, e);
  }

  lemma BindingsUntouched(s: State, e: Effect)
    requires !e.Bind? && !e.DropProfile? && !e.Commit?
    ensures ApplyEffect(s, e).bindings == s.bindings
  {
    hide ApplyEffect;
    EffectParts(s, e);
  }

  lemma UntouchedRows(s: State, e: Effect)
    ensures !e.WriteRow? && !e.Complete? && !e.ExpireRows? && !e.Commit? ==> ApplyEffect(s, e).journal == s.journal
    ensures !e.Bind? && !e.DropProfile? && !e.Commit? ==> ApplyEffect(s, e).bindings == s.bindings
  {
    hide ApplyEffect;
    if !e.WriteRow? && !e.Complete? && !e.ExpireRows? && !e.Commit? {
      JournalUntouched(s, e);
    }
    if !e.Bind? && !e.DropProfile? && !e.Commit? {
      BindingsUntouched(s, e);
    }
  }

  lemma SessionEffects(s: State, e: Effect)
    requires e.Insert? || e.Pop?
    ensures var s' := ApplyEffect(s, e);
            && (forall t :: t in s'.sessions ==>
                (t in s.sessions && s'.sessions[t] == s.sessions[t]) || (e.Insert? && e.thread == t))
            && (e.Pop? ==> forall t :: t in s'.sessions ==> s'.sessions[t] != e.gen)
  {
  }

  lemma TicketEffects(s: State, e: Effect)
    requires e.IssueTicket? || e.DropTickets?
    ensures var s' := ApplyEffect(s, e);
            && (forall k :: k in s'.tickets ==>
                (k in s.tickets && s'.tickets[k] == s.tickets[k]) || (e.IssueTicket? && e.thread == s'.tickets[k].0))
            && (e.DropTickets? ==> forall k :: k in s'.tickets ==> !Matches(s'.tickets[k].0, e.thread))
  {
    hide Matches;
  }

  lemma RowEffects(s: State, e: Effect)
    requires e.WriteRow? || e.Complete? || e.ExpireRows?
    ensures forall c :: c in ApplyEffect(s, e).journal ==>
        c in s.journal || ((e.WriteRow? || e.Complete?) && e.call == c)
    ensures ApplyEffect(s, e).bindings == s.bindings
  {
  }

  lemma BindEffects(s: State, e: Effect)
    requires e.Bind? || e.DropProfile?
    ensures forall t :: t in ApplyEffect(s, e).bindings ==> t in s.bindings || (e.Bind? && e.thread == t)
    ensures ApplyEffect(s, e).journal == s.journal
  {
  }

  lemma CommitEffects(s: State, t: string)
    ensures NoRecords(ApplyEffect(s, Commit(t)), t)
    ensures forall c :: c in ApplyEffect(s, Commit(t)).journal ==> c in s.journal
    ensures forall x :: x in ApplyEffect(s, Commit(t)).bindings ==> x in s.bindings
  {
    hide Matches;
  }

  /** Sessions and tickets after an effect. */
  ghost predicate SessionsFrom(s: State, e: Effect, s': State) {
    && (forall t :: t in s'.sessions ==>
        (t in s.sessions && s'.sessions[t] == s.sessions[t]) || (e.Insert? && e.thread == t))
    && (e.Pop? ==> forall t :: t in s'.sessions ==> s'.sessions[t] != e.gen)
    && (forall k :: k in s'.tickets ==>
        (k in s.tickets && s'.tickets[k] == s.tickets[k]) || (e.IssueTicket? && e.thread == s'.tickets[k].0))
    && (e.DropTickets? ==> forall k :: k in s'.tickets ==> !Matches(s'.tickets[k].0, e.thread))
  }

  /** Journal rows and bindings after an effect. */
  ghost predicate RecordsFrom(s: State, e: Effect, s': State) {
    && (forall c :: c in s'.journal ==> c in s.journal || ((e.WriteRow? || e.Complete?) && e.call == c))
    && (forall t :: t in s'.bindings ==> t in s.bindings || (e.Bind? && e.thread == t))
    && (e.Commit? ==> NoRecords(s', e.thread))
  }

  lemma SessionsAfter(s: State, id: nat, m: Move)
    requires id in s.ops
    ensures SessionsFrom(s, m.effect, Perform(s, id, m))
  {
    hide ApplyEffect, Matches;
    var s1 := s.(ops := match m.next case None => s.ops - {id} case Some(op) => s.ops[id := op]);
    Untouched(s1, m.effect);
    if m.effect.Insert? || m.effect.Pop? {
      SessionEffects(s1, m.effect);
    } else if m.effect.IssueTicket? || m.effect.DropTickets? {
      TicketEffects(s1, m.effect);
    }
  }

  lemma RecordsAfter(s: State, id: nat, m: Move)
    requires id in s.ops
    ensures RecordsFrom(s, m.effect, Perform(s, id, m))
  {
    hide ApplyEffect, Matches, NoRecords;
    var s1 := s.(ops := match m.next case None => s.ops - {id} case Some(op) => s.ops[id := op]);
    UntouchedRows(s1, m.effect);
    if m.effect.WriteRow? || m.effect.Complete? || m.effect.ExpireRows? {
      RowEffects(s1, m.effect);
    } else if m.effect.Bind? || m.effect.DropProfile? {
      BindEffects(s1, m.effect);
    } else if m.effect.Commit? {
      CommitEffects(s1, m.effect.thread);
    }
  }

  lemma MarkEffects(s: State, t: string)
    ensures ApplyEffect(s, Mark(t)).deleting == s.deleting + {t}
    ensures ApplyEffect(s, Unmark(t)).deleting == s.deleting - {t}
  {
  }

  lemma MarksAfter(s: State, id: nat, m: Move)
    requires id in s.ops
    ensures Perform(s, id, m).deleting ==
            if m.effect.Mark? then s.deleting + {m.effect.thread} else if m.effect.Unmark?
                then s.deleting - {m.effect.thread} else s.deleting
  {
    hide ApplyEffect;
    var s1 := s.(ops := match m.next case None => s.ops - {id} case Some(op) => s.ops[id := op]);
    Untouched(s1, m.effect);
    if m.effect.Mark? || m.effect.Unmark? {
      MarkEffects(s1, m.effect.thread);
    }
  }

  // ---------------------------------------------------------------- preservation

  lemma PastHoldsKey(op: Op)
    requires Past(op)
    ensures Holds(op, DeleteKey(ThreadIds.Root(op.task.thread)))
  {
  }

  lemma MoveKeepsMark(s: State, id: nat, m: Move, d: nat)
    requires DeletionOk(s) && Mutex(s) && id in s.ops && Lawful(s, id, s.ops[id], m)
    requires d in Perform(s, id, m).ops && Comes(s, id, m, d, Perform(s, id, m).ops[d])
    ensures MarkStands(Perform(s, id, m), d)
  {
    hide Perform, Holds, Matches, KnowsAll, Covers, Emptied, ProperKids, ProperTargets, EntersLawfully, Gathered;
    MarksAfter(s, id, m);
    if Past(Perform(s, id, m).ops[d]) {
      if d != id && m.effect.Unmark? && s.ops[d].task == s.ops[id].task && Past(s.ops[d]) {
        PastHoldsKey(s.ops[d]);
        PastHoldsKey(s.ops[id]);
      }
      if m.effect.SpawnAll? && d !in s.ops {
        KidIsCloser(s, id, s.ops[id].task.thread, m.effect.kids, d);
      }
    }
  }

  lemma KidIsCloser(s: State, id: nat, thread: string, kids: map<nat, Op>, k: nat)
    requires ProperKids(s, id, thread, kids) && k in kids
    ensures kids[k].task.CloseOne?
  {
  }

  /** An operation inside a covered thread after the move was inside it before. */
  lemma InsideBefore(s: State, id: nat, m: Move, d: nat, o: nat, op: Op, t: string)
    requires id in s.ops && d in s.ops && MarkStands(s, d) && Past(s.ops[d]) && Lawful(s, id, s.ops[id], m)
    requires Comes(s, id, m, o, op) && InsideOf(op, t) && Matches(t, s.ops[d].task.thread)
    requires m.next.Some? ==> m.next.value.task == s.ops[id].task || m.next.value.task.Finishing?
    ensures o in s.ops && InsideOf(s.ops[o], t)
  {
    hide Matches, ProperKids, ProperTargets, Gathered, StagesLawfully;
    if m.effect.SpawnAll? && o !in s.ops {
      KidIsCloser(s, id, s.ops[id].task.thread, m.effect.kids, o);
    }
  }

  ghost predicate AllCome(s: State, id: nat, m: Move, s': State) {
    forall o :: o in s'.ops ==> Comes(s, id, m, o, s'.ops[o])
  }

  lemma MoveKeepsKnows(s: State, id: nat, m: Move, d: nat)
    requires DeletionOk(s) && id in s.ops && Lawful(s, id, s.ops[id], m)
    requires m.next.Some? ==> m.next.value.task == s.ops[id].task || m.next.value.task.Finishing?
    requires AllCome(s, id, m, Perform(s, id, m)) && d in Perform(s, id, m).ops
    ensures KnowsAll(Perform(s, id, m), d)
  {
    hide Perform, Matches, InsideOf, Lawful, Covers, Emptied, Knows, Past;
    var s' := Perform(s, id, m);
    if Knows(s'.ops[d]) {
      assert Comes(s, id, m, d, s'.ops[d]);
      KnewBefore(s, id, m, d, s'.ops[d]);
      var thread, knew := s.ops[d].task.thread, Knows(s.ops[d]) && PcTargets(s'.ops[d].pc) == PcTargets(s.ops[d].pc);
      forall o, t | o in s'.ops && InsideOf(s'.ops[o], t) && Matches(t, thread) ensures t in PcTargets(s'.ops[d].pc) {
        assert Comes(s, id, m, o, s'.ops[o]);
        InsideBefore(s, id, m, d, o, s'.ops[o], t);
        if !knew {
          ProperCovers(s, thread, PcTargets(s'.ops[d].pc), o, t);
        }
      }
      SessionsAfter(s, id, m);
      forall t | t in s'.sessions && Matches(t, thread) ensures t in PcTargets(s'.ops[d].pc) {
        if t !in s.sessions {
          InsertedInside(s, id, m);
          assert InsideOf(s.ops[id], t);
        } else if !knew {
          ProperCoversSession(s, thread, PcTargets(s'.ops[d].pc), t);
        }
      }
    }
  }

  lemma InsertedInside(s: State, id: nat, m: Move)
    requires id in s.ops && Lawful(s, id, s.ops[id], m)
    ensures m.effect.Insert? ==> InsideOf(s.ops[id], m.effect.thread)
    ensures m.effect.IssueTicket? ==> InsideOf(s.ops[id], m.effect.thread)
    ensures m.effect.Bind? ==> InsideOf(s.ops[id], m.effect.thread)
    ensures m.effect.WriteRow? || m.effect.Complete? ==> InsideOf(s.ops[id], m.effect.call.thread)
  {
    hide InsideOf;
  }

  lemma ProperCovers(s: State, thread: string, targets: seq<string>, o: nat, t: string)
    requires ProperTargets(s, thread, targets) && o in s.ops && InsideOf(s.ops[o], t) && Matches(t, thread)
    ensures t in targets
  {
    hide Matches, Inside;
  }

  lemma ProperCoversSession(s: State, thread: string, targets: seq<string>, t: string)
    requires ProperTargets(s, thread, targets) && t in s.sessions && Matches(t, thread)
    ensures t in targets
  {
    hide Matches, Inside;
  }

  lemma KnewBefore(s: State, id: nat, m: Move, d: nat, op: Op)
    requires id in s.ops && Lawful(s, id, s.ops[id], m) && Comes(s, id, m, d, op) && Knows(op)
    ensures d in s.ops && Past(s.ops[d]) && op.task == s.ops[d].task && op.task.DeleteThread?
    ensures (Knows(s.ops[d]) && PcTargets(op.pc) == PcTargets(s.ops[d].pc))
            || (d == id && m.effect.Nothing? && ProperTargets(s, op.task.thread, PcTargets(op.pc)))
  {
    hide Matches, ProperKids, ProperTargets, Gathered, EntersLawfully;
    if m.effect.SpawnAll? && d !in s.ops {
      KidIsCloser(s, id, s.ops[id].task.thread, m.effect.kids, d);
    }
  }

  /** Stage by stage: a deletion in a later stage was in it before, or comes from the stage before. */
  lemma StageBefore(s: State, id: nat, m: Move, d: nat, op: Op)
    requires id in s.ops && Lawful(s, id, s.ops[id], m) && Comes(s, id, m, d, op) && op.task.DeleteThread?
    ensures op.pc.Gathering? || op.pc.Purging? || op.pc.Unmarking? ==>
        d in s.ops && op.task == s.ops[d].task && HoldsTargets(s.ops[d])
    ensures op.pc.Gathering? ==>
        (d != id && s.ops[d] == op)
        || (d == id && m.effect.SpawnAll? && ProperKids(s, id, op.task.thread, m.effect.kids))
    ensures op.pc.Purging? ==>
        (d != id && s.ops[d] == op)
        || (d == id && s.ops[d].pc.Gathering? && m.effect == DropTickets(op.task.thread) && Gathered(s, d))
    ensures op.pc.Unmarking? ==>
        (d != id && s.ops[d] == op) || (d == id && s.ops[d].pc.Purging? && m.effect == Commit(op.task.thread))
  {
    hide Matches, ProperKids, ProperTargets, Gathered, EntersLawfully;
    if m.effect.SpawnAll? && d !in s.ops {
      KidIsCloser(s, id, s.ops[id].task.thread, m.effect.kids, d);
    }
  }

  lemma MoveKeepsCovers(s: State, id: nat, m: Move, d: nat)
    requires DeletionOk(s) && Mutex(s) && id in s.ops && Lawful(s, id, s.ops[id], m)
    requires AllCome(s, id, m, Perform(s, id, m)) && d in Perform(s, id, m).ops
    ensures Covers(Perform(s, id, m), d)
  {
    hide Perform, Matches, InsideOf, Lawful, HoldsTargets, Emptied, ProperKids, Gathered, Mutex, MarkStands, HasCloser;
    var s' := Perform(s, id, m);
    if s'.ops[d].task.DeleteThread? && s'.ops[d].pc.Gathering? {
      assert Comes(s, id, m, d, s'.ops[d]);
      StageBefore(s, id, m, d, s'.ops[d]);
      HoldingDrains(s, d);
      InsertedInside(s, id, m);
      SessionsAfter(s, id, m);
      var thread := s.ops[d].task.thread;
      forall t | t in s'.sessions && Matches(t, thread) ensures HasCloser(s', d, s'.sessions[t]) {
        assert t in s.sessions && s'.sessions[t] == s.sessions[t];
        if d == id {
          KidsClose(s, id, m, t);
        } else {
          CloserStays(s, id, m, d, s.sessions[t]);
        }
      }
    }
  }

  lemma KidsAreNew(s: State, id: nat, m: Move)
    requires id in s.ops && Lawful(s, id, s.ops[id], m)
    ensures m.effect.SpawnAll? ==> forall k :: k in m.effect.kids ==> k !in s.ops
    ensures m.effect.FailParent? ==> m.next.None?
  {
    hide EntersLawfully, StagesLawfully, ClosesLawfully;
  }

  lemma KidsClose(s: State, id: nat, m: Move, t: string)
    requires id in s.ops && s.ops[id].task.DeleteThread? && m.effect.SpawnAll?
        && ProperKids(s, id, s.ops[id].task.thread, m.effect.kids)
    requires t in s.sessions && Matches(t, s.ops[id].task.thread)
    ensures HasCloser(Perform(s, id, m), id, s.sessions[t])
  {
    hide ApplyEffect, Matches;
    OpsAfter(s, id, m);
    var k :| k in m.effect.kids && m.effect.kids[k].task.gen == s.sessions[t];
    assert k !in s.ops && m.effect.kids[k].task == CloseOne(s.sessions[t], id);
  }

  lemma CloserStays(s: State, id: nat, m: Move, d: nat, g: nat)
    requires id in s.ops && Lawful(s, id, s.ops[id], m) && d in s.ops && HasCloser(s, d, g) && d != id
    requires d in Perform(s, id, m).ops && Perform(s, id, m).ops[d].pc.Gathering?
    requires m.effect != Pop(g)
    ensures HasCloser(Perform(s, id, m), d, g)
  {
    hide ApplyEffect, Matches, Perform, EntersLawfully, StagesLawfully;
    var k :| k in s.ops && s.ops[k].task == CloseOne(g, d);
    KidsAreNew(s, id, m);
    OpsAfter(s, id, m);
    if k == id {
      assert m.next.Some?;
      assert Comes(s, id, m, k, Perform(s, id, m).ops[k]);
      CloserNext(s, id, m, Perform(s, id, m).ops[k]);
    } else {
      assert Perform(s, id, m).ops[k].task == CloseOne(g, d);
    }
  }

  lemma CloserNext(s: State, id: nat, m: Move, op: Op)
    requires id in s.ops && s.ops[id].task.CloseOne? && m.next.Some? && Lawful(s, id, s.ops[id], m)
        && Comes(s, id, m, id, op)
    ensures op.task == s.ops[id].task
  {
    hide EntersLawfully, StagesLawfully, ActsLawfully;
  }

  lemma GatheredNone(s: State, d: nat)
    requires d in s.ops && s.ops[d].task.DeleteThread? && s.ops[d].pc.Gathering? && Covers(s, d) && Gathered(s, d)
    ensures forall t :: t in s.sessions ==> !Matches(t, s.ops[d].task.thread)
  {
    hide Matches;
  }

  /** A drained thread gets neither sessions nor tickets, rows nor bindings. */
  lemma DrainedStaysEmpty(s: State, id: nat, m: Move, thread: string)
    requires Drained(s, thread) && id in s.ops && Lawful(s, id, s.ops[id], m)
    ensures NoSessions(s, thread) ==> NoSessions(Perform(s, id, m), thread)
    ensures NoRecords(s, thread) ==> NoRecords(Perform(s, id, m), thread)
  {
    hide Perform, Matches, InsideOf, Lawful;
    InsertedInside(s, id, m);
    SessionsAfter(s, id, m);
    RecordsAfter(s, id, m);
  }

  /** The two steps that empty: the tickets after the sessions, and the rows. */
  lemma StageEmpties(s: State, id: nat, m: Move, thread: string)
    requires id in s.ops
    ensures m.effect == DropTickets(thread) && (forall t :: t in s.sessions ==> !Matches(t, thread)) ==>
        NoSessions(Perform(s, id, m), thread)
    ensures m.effect == Commit(thread) ==> NoRecords(Perform(s, id, m), thread)
  {
    hide Perform, Matches;
    SessionsAfter(s, id, m);
    RecordsAfter(s, id, m);
  }

  lemma MoveKeepsEmptied(s: State, id: nat, m: Move, d: nat)
    requires DeletionOk(s) && Mutex(s) && id in s.ops && Lawful(s, id, s.ops[id], m)
    requires AllCome(s, id, m, Perform(s, id, m)) && d in Perform(s, id, m).ops
    ensures Emptied(Perform(s, id, m), d)
  {
    hide Perform, Matches, Drained, Lawful, HoldsTargets, Gathered, Mutex, MarkStands, NoSessions, NoRecords;
    var s' := Perform(s, id, m);
    if s'.ops[d].task.DeleteThread? && (s'.ops[d].pc.Purging? || s'.ops[d].pc.Unmarking?) {
      assert Comes(s, id, m, d, s'.ops[d]);
      StageBefore(s, id, m, d, s'.ops[d]);
      HoldingDrains(s, d);
      DrainedStaysEmpty(s, id, m, s.ops[d].task.thread);
      StageEmpties(s, id, m, s.ops[d].task.thread);
      if d == id && s.ops[d].pc.Gathering? {
        GatheredNone(s, d);
      }
    }
  }

  lemma MoveKeepsDeletion(s: State, id: nat, m: Move)
    requires DeletionOk(s) && Mutex(s) && id in s.ops && Lawful(s, id, s.ops[id], m)
    requires m.next.Some? ==> m.next.value.task == s.ops[id].task || m.next.value.task.Finishing?
    ensures DeletionOk(Perform(s, id, m))
  {
    hide Perform, MarkStands, KnowsAll, Covers, Emptied, Mutex, EntersLawfully, StagesLawfully, Comes;
    var s' := Perform(s, id, m);
    KidsAreNew(s, id, m);
    OpsAfter(s, id, m);
    forall d | d in s'.ops ensures MarkStands(s', d) && KnowsAll(s', d) && Covers(s', d) && Emptied(s', d) {
      MoveKeepsMark(s, id, m, d);
      MoveKeepsKnows(s, id, m, d);
      MoveKeepsCovers(s, id, m, d);
      MoveKeepsEmptied(s, id, m, d);
    }
  }

  lemma StepKeepsDeletion(s: State, s': State, id: nat, ch: Choice)
    requires DeletionOk(s) && LocksOk(s) && (Work(s, s', id, ch) || Aborts(s, s', id, ch))
    ensures DeletionOk(s')
  {
    hide Plan, Abort, Perform, Mutex, WellFormed, DeletionOk, Lawful;
    if Work(s, s', id, ch) {
      PlanLawful(s, id, s.ops[id], ch);
      if Plan(s, id, s.ops[id], ch).value.next.Some? {
        PlanTask(s, id, s.ops[id], ch);
      }
      MoveKeepsDeletion(s, id, Plan(s, id, s.ops[id], ch).value);
    } else {
      AbortLawful(s, id, s.ops[id], ch);
      AbortTask(s.ops[id], ch);
      MoveKeepsDeletion(s, id, Abort(s.ops[id], ch));
    }
  }

  lemma AbortTask(op: Op, ch: Choice)
    ensures Abort(op, ch).next.Some? ==> Abort(op, ch).next.value.task.Finishing?
  {
  }

  lemma InitialOutside(task: Task)
    ensures var op := Initial(task);
            && !Past(op) && !Knows(op) && !op.pc.Gathering? && !op.pc.Purging? && !op.pc.Unmarking?
            && forall t :: !InsideOf(op, t)
  {
  }

  /** What a deletion relies on outlives the start of another operation. */
  lemma SpawnKeepsOne(s: State, s': State, id: nat, task: Task, d: nat)
    requires DeletionOk(s) && Spawn(s, s', id, task) && d in s'.ops
    ensures MarkStands(s', d) && KnowsAll(s', d) && Covers(s', d) && Emptied(s', d)
  {
    hide Matches, InsideOf, Past, Knows, HasCloser, Initial, NoSessions, NoRecords, PcTargets;
    InitialOutside(task);
    if d != id {
      CloserStaysSpawned(s, s', id, d);
      SameBookNoSessions(s, s', s.ops[d]);
    }
  }

  lemma SameBookNoSessions(s: State, s': State, op: Op)
    requires s' == s.(ops := s'.ops)
    ensures op.task.DeleteThread? ==>
              && (NoSessions(s, op.task.thread) ==> NoSessions(s', op.task.thread))
              && (NoRecords(s, op.task.thread) ==> NoRecords(s', op.task.thread))
  {
    hide Matches;
  }

  lemma SpawnKeepsDeletion(s: State, s': State, id: nat, task: Task)
    requires DeletionOk(s) && Spawn(s, s', id, task)
    ensures DeletionOk(s')
  {
    hide Spawn, MarkStands, KnowsAll, Covers, Emptied;
    forall d | d in s'.ops ensures MarkStands(s', d) && KnowsAll(s', d) && Covers(s', d) && Emptied(s', d) {
      SpawnKeepsOne(s, s', id, task, d);
    }
  }

  lemma CloserStaysSpawned(s: State, s': State, id: nat, d: nat)
    requires id !in s.ops && id in s'.ops && s' == s.(ops := s.ops[id := s'.ops[id]]) && d in s.ops
    ensures forall g :: HasCloser(s, d, g) ==> HasCloser(s', d, g)
  {
    forall g | HasCloser(s, d, g) ensures HasCloser(s', d, g) {
      var k :| k in s.ops && s.ops[k].task == CloseOne(g, d);
      assert s'.ops[k].task == CloseOne(g, d);
    }
  }

  lemma GrantKeepsDeletion(s: State, s': State, id: nat)
    requires DeletionOk(s) && AllWellFormed(s) && Grant(s, s', id)
    ensures DeletionOk(s')
  {
    hide Matches, Wants, Granted, Holds, InsideOf, HasCloser, WellFormed, Past, Knows;
    forall d | d in s'.ops ensures MarkStands(s', d) && KnowsAll(s', d) && Covers(s', d) && Emptied(s', d) {
      GrantedStage(s.ops[d]);
      GrantedStage(s.ops[id]);
      GrantKeepsClosers(s, s', id, d);
    }
  }

  /** Being given a lock changes neither an operation's stage of deletion nor which scope it is in. */
  lemma GrantedStage(op: Op)
    requires WellFormed(op)
    ensures Wants(op).Some? ==>
              && Granted(op).task == op.task && PcTargets(Granted(op).pc) == PcTargets(op.pc)
                  && Knows(Granted(op)) == Knows(op)
              && (op.task.DeleteThread? ==>
                  !Granted(op).pc.Gathering? && !Granted(op).pc.Purging? && !Granted(op).pc.Unmarking?)
              && Past(Granted(op)) == Past(op)
              && forall t :: InsideOf(Granted(op), t) ==> InsideOf(op, t)
  {
  }

  lemma GrantKeepsClosers(s: State, s': State, id: nat, d: nat)
    requires id in s.ops && id in s'.ops && s' == s.(ops := s.ops[id := s'.ops[id]])
        && s'.ops[id].task == s.ops[id].task
    ensures forall g :: HasCloser(s, d, g) ==> HasCloser(s', d, g)
  {
    forall g | HasCloser(s, d, g) ensures HasCloser(s', d, g) {
      var k :| k in s.ops && s.ops[k].task == CloseOne(g, d);
      assert s'.ops[k].task == CloseOne(g, d);
    }
  }

  lemma SameClosers(s: State, s': State, d: nat, g: nat)
    requires s'.ops == s.ops && HasCloser(s, d, g)
    ensures HasCloser(s', d, g)
  {
  }

  /** What a deletion relies on outlives the loss of tickets and changes of anything else. */
  lemma SameKeepsDeletion(s: State, s': State, d: nat)
    requires DeletionOk(s) && d in s.ops && s'.ops == s.ops && s'.sessions == s.sessions && s'.deleting == s.deleting
    requires s'.journal == s.journal && s'.bindings == s.bindings
    requires forall k :: k in s'.tickets ==> k in s.tickets && s'.tickets[k] == s.tickets[k]
    ensures MarkStands(s', d) && KnowsAll(s', d) && Covers(s', d) && Emptied(s', d)
  {
    hide Matches, InsideOf, Past, Knows, HasCloser, PcTargets;
    forall g | HasCloser(s, d, g) ensures HasCloser(s', d, g) {
      SameClosers(s, s', d, g);
    }
  }

  lemma OutsideKeepsDeletion(s: State, s': State, id: string, token: nat)
    requires DeletionOk(s) && (Outside(s, s', id, token) || s' == Crash(s))
    ensures DeletionOk(s')
  {
    hide MarkStands, KnowsAll, Covers, Emptied;
    forall d | d in s'.ops ensures MarkStands(s', d) && KnowsAll(s', d) && Covers(s', d) && Emptied(s', d) {
      SameKeepsDeletion(s, s', d);
    }
  }

  lemma NextKeepsDeletion(s: State, s': State)
    requires DeletionOk(s) && LocksOk(s) && Next(s, s')
    ensures DeletionOk(s')
  {
    hide Spawn, Grant, Work, Aborts, Outside, Crash, DeletionOk, Mutex, AllWellFormed;
    if id, task :| Spawn(s, s', id, task) {
      SpawnKeepsDeletion(s, s', id, task);
    } else if id :| Grant(s, s', id) {
      GrantKeepsDeletion(s, s', id);
    } else if id, ch :| Work(s, s', id, ch) {
      StepKeepsDeletion(s, s', id, ch);
    } else if id, ch :| Aborts(s, s', id, ch) {
      StepKeepsDeletion(s, s', id, ch);
    } else if id, token :| Outside(s, s', id, token) {
      OutsideKeepsDeletion(s, s', id, token);
    } else {
      OutsideKeepsDeletion(s, s', "", 0);
    }
  }

  /** A deletion covers its conversation and all its sub-threads, and no other. */
  lemma MatchesMeans(candidate: string, thread: string)
    ensures Matches(candidate, thread) <==> candidate == thread || exists sub :: candidate == thread + ":sub:" + sub
  {
    if thread + ":sub:" <= candidate {
      assert candidate == thread + ":sub:" + candidate[|thread| + 5..];
    }
  }

  // ---------------------------------------------------------------- every reachable state

  lemma {:induction false} RunDeletionOk(run: seq<State>, i: nat)
    requires Run(run) && i < |run|
    ensures DeletionOk(run[i]) && LocksOk(run[i])
  {
    hide Next;
    RunLocksOk(run, i);
    if i > 0 {
      RunDeletionOk(run, i - 1);
      NextKeepsDeletion(run[i - 1], run[i]);
    }
  }

  predicate DeletionEffect(s: State, id: nat, thread: string, e: Effect) {
    || e.Nothing? || e == Mark(thread) || e == Unmark(thread) || e == DropTickets(thread) || e == Commit(thread)
    || (e.SpawnAll? && ProperKids(s, id, thread, e.kids))
  }

  lemma DeletionEffects(s: State, id: nat, op: Op, ch: Choice)
    requires WellFormed(op) && op.task.DeleteThread? && Plan(s, id, op, ch).Some?
    ensures DeletionEffect(s, id, op.task.thread, Plan(s, id, op, ch).value.effect)
  {
    assert DeletePc(op.pc) by { hide Increasing; }
    DeletionPlan(s, id, op, ch);
    hide Plan, ProperKids, ProperTargets, Gathered, Increasing;
  }

  /** What belongs to a conversation that is not covered. */
  ghost predicate OthersUntouched(s: State, s': State, thread: string) {
    && s'.sessions == s.sessions && s'.objs == s.objs && s'.profiles == s.profiles
    && s'.started == s.started && s'.answers == s.answers
    && (forall k :: k in s.tickets && !Matches(s.tickets[k].0, thread) ==>
          k in s'.tickets && s'.tickets[k] == s.tickets[k])
    && (forall c :: c in s.journal && !Matches(c.thread, thread) ==> c in s'.journal && s'.journal[c] == s.journal[c])
    && (forall t :: t in s.bindings && !Matches(t, thread) ==> t in s'.bindings && s'.bindings[t] == s.bindings[t])
    && (forall t :: t in s.deleting && t != thread ==> t in s'.deleting)
  }

  /** A deletion touches nothing of the conversations that it does not cover, and closes none of their sessions. */
  lemma DeletionTouchesOnlyCovered(run: seq<State>, i: nat, d: nat, ch: Choice)
    requires Run(run) && i + 1 < |run| && Work(run[i], run[i + 1], d, ch) && run[i].ops[d].task.DeleteThread?
    ensures OthersUntouched(run[i], run[i + 1], run[i].ops[d].task.thread)
    ensures var s, m := run[i], Plan(run[i], d, run[i].ops[d], ch).value;
            m.effect.SpawnAll? ==> forall k :: k in m.effect.kids ==>
              m.effect.kids[k].task.CloseOne? && CoveredSession(s, s.ops[d].task.thread, m.effect.kids[k].task.gen)
  {
    hide Run, Plan, ApplyEffect, Matches, DeletionEffect, OthersUntouched;
    RunLocksOk(run, i);
    var s, op := run[i], run[i].ops[d];
    var m := Plan(s, d, op, ch).value;
    DeletionEffects(s, d, op, ch);
    var s1 := s.(ops := match m.next case None => s.ops - {d} case Some(next) => s.ops[d := next]);
    DeletionEffectIgnoresOps(s, s1, d, op.task.thread, m.effect);
    DeletionKids(s, d, op.task.thread, m.effect);
  }

  lemma DeletionKids(s: State, id: nat, thread: string, e: Effect)
    requires DeletionEffect(s, id, thread, e)
    ensures e.SpawnAll? ==> forall k :: k in e.kids ==>
              e.kids[k].task.CloseOne? && CoveredSession(s, thread, e.kids[k].task.gen)
  {
    hide Matches, CoveredSession;
  }

  lemma DeletionEffectIgnoresOps(s: State, s1: State, id: nat, thread: string, e: Effect)
    requires DeletionEffect(s, id, thread, e) && s1 == s.(ops := s1.ops)
    ensures OthersUntouched(s, ApplyEffect(s1, e), thread)
  {
    hide Matches, ProperKids;
  }

  /** Once a deletion holds its locks, no operation is inside the scope of its thread or of any of its
      sub-threads, whatever was running when it started. */
  lemma DeletionDrains(run: seq<State>, i: nat, d: nat)
    requires Run(run) && i < |run| && d in run[i].ops && HoldsTargets(run[i].ops[d])
    ensures Drained(run[i], run[i].ops[d].task.thread)
  {
    hide Run;
    RunDeletionOk(run, i);
    HoldingDrains(run[i], d);
  }

  /** From its mark to its end, nothing enters a covered scope. */
  lemma NothingEnters(run: seq<State>, i: nat, d: nat, id: nat, ch: Choice)
    requires Run(run) && i < |run| && d in run[i].ops && Past(run[i].ops[d])
    requires id in run[i].ops && run[i].ops[id].pc.Entering? && Plan(run[i], id, run[i].ops[id], ch).Some?
    requires ThreadOf(run[i].ops[id].task).Some?
        && Matches(ThreadOf(run[i].ops[id].task).value, run[i].ops[d].task.thread)
    requires !run[i].ops[id].task.Release?
    ensures Plan(run[i], id, run[i].ops[id], ch).value == END
  {
    hide Run, Matches;
    RunDeletionOk(run, i);
    assert MarkStands(run[i], d);
  }

  /** After its disposals a deletion leaves no session and no viewer ticket of its threads, and after its
      commit no journal row and no binding, until it ends. */
  lemma DeletionEmpties(run: seq<State>, i: nat, d: nat)
    requires Run(run) && i < |run| && d in run[i].ops && run[i].ops[d].task.DeleteThread?
    ensures run[i].ops[d].pc.Purging? || run[i].ops[d].pc.Unmarking? ==> NoSessions(run[i], run[i].ops[d].task.thread)
    ensures run[i].ops[d].pc.Unmarking? ==> NoRecords(run[i], run[i].ops[d].task.thread)
    ensures var s, t := run[i], run[i].ops[d].task.thread;
            forall u :: u == t || (exists sub :: u == t + ":sub:" + sub) ==>
              && (s.ops[d].pc.Purging? || s.ops[d].pc.Unmarking? ==>
                    u !in s.sessions && forall k :: k in s.tickets ==> s.tickets[k].0 != u)
              && (s.ops[d].pc.Unmarking? ==> u !in s.bindings && forall c :: c in s.journal ==> c.thread != u)
  {
    hide Run, Matches;
    RunDeletionOk(run, i);
    assert Emptied(run[i], d);
    var s, t := run[i], run[i].ops[d].task.thread;
    forall u | u == t || exists sub :: u == t + ":sub:" + sub
      ensures s.ops[d].pc.Purging? || s.ops[d].pc.Unmarking? ==>
                u !in s.sessions && forall k :: k in s.tickets ==> s.tickets[k].0 != u
      ensures s.ops[d].pc.Unmarking? ==> u !in s.bindings && forall c :: c in s.journal ==> c.thread != u
    {
      MatchesMeans(u, t);
    }
  }
}
