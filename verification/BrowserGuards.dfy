/** What operations have checked stays so: closed means closed, no launch while a handoff waits, a session that is
    handed over is in human hands; and no mark outlives its deletion. */
module BrowserGuards {
  import opened Prelude
  import opened ThreadIds
  import opened BrowserModel
  import opened BrowserLocks
  import opened BrowserSessions
  import opened BrowserDeletion
  import opened BrowserJournal

  predicate LaunchPc(pc: Pc) {
    pc.AtProfile? || pc.HaveProfile? || pc.Launching?
  }

  ghost predicate Guarded(s: State, op: Op) {
    ThreadOf(op.task).Some? ==>
      SessionGuard(s, op) && HandoffGuard(s, op) && HumanGuard(s, op) && BindingGuard(s, op)
  }

  /** The session in hand is the thread's only one, and a close that is recorded has left none. */
  ghost predicate SessionGuard(s: State, op: Op)
    requires ThreadOf(op.task).Some?
  {
    var t := ThreadOf(op.task).value;
    && (SessionOf(op.pc).Some? && t in s.sessions ==> s.sessions[t] == SessionOf(op.pc).value)
    && (op.pc.CloseRecord? ==> t !in s.sessions)
  }

  /** Whoever is on the way to a launch has found no handoff of the thread that waits. */
  ghost predicate HandoffGuard(s: State, op: Op)
    requires ThreadOf(op.task).Some?
  {
    && (LaunchPc(op.pc) && !op.task.Select? ==> !PendingHandoff(s, ThreadOf(op.task).value))
    && (op.pc.Launching? ==> !op.task.Select?)
  }

  ghost predicate HumanGuard(s: State, op: Op) {
    op.pc.Offering? ==> op.pc.gen in s.objs && s.objs[op.pc.gen].human
  }

  /** The profile that the operation is going to open. */
  function ProfileFor(pc: Pc): Option<Profile> {
    match pc
    case Expiring(stage) => StageProfile(stage)
    case Looking(p) => Some(p)
    case AtProfile(p) => Some(p)
    case HaveProfile(p) => Some(p)
    case Launching(p) => Some(p)
    case AtSession(_, why) => WhyProfile(why)
    case HaveSession(_, why) => WhyProfile(why)
    case Disposing(_, why) => WhyProfile(why)
    case _ => None
  }

  function StageProfile(stage: Stage): Option<Profile> {
    match stage case Ensuring(p) => Some(p) case _ => None
  }

  function WhyProfile(why: Why): Option<Profile> {
    match why case ToExpire(stage) => StageProfile(stage) case _ => None
  }

  /** It is the one that the thread is bound to, unless that was deleted meanwhile; for a selection, the one that was
      asked for. */
  ghost predicate BindingGuard(s: State, op: Op)
    requires ThreadOf(op.task).Some?
  {
    var t := ThreadOf(op.task).value;
    ProfileFor(op.pc).Some? ==>
      if op.task.Select? then op.task.profile.Some? && ProfileFor(op.pc).value == Named(op.task.profile.value)
      else ProfileFor(op.pc).value == ProfileOf(s, t)
           || (ProfileFor(op.pc).value.Named? && ProfileOf(s, t) == Private(t))
  }

  ghost predicate GuardsOk(s: State) {
    forall o :: o in s.ops ==> Guarded(s, s.ops[o])
  }

  /** Nothing that the guards speak of. */
  predicate Unguarded(op: Op) {
    SessionOf(op.pc).None? && !op.pc.CloseRecord? && !LaunchPc(op.pc) && !op.pc.Offering? && ProfileFor(op.pc).None?
  }

  lemma UnguardedOk(s: State, op: Op)
    requires Unguarded(op)
    ensures Guarded(s, op)
  {
  }

  // ---------------------------------------------------------------- an operation's own segment

  /** The next state of the operation is guarded in the state after its effect. */
  ghost predicate KeepsGuard(s: State, m: Move) {
    m.next.Some? ==> Guarded(ApplyEffect(s, m.effect), m.next.value)
  }

  lemma ComingInGuard(s: State, id: nat, op: Op, ch: Choice)
    requires (op.pc.Entering? || op.pc.InThread?) && Plan(s, id, op, ch).Some?
    ensures KeepsGuard(s, Plan(s, id, op, ch).value)
  {
    hide Matches, Era, PendingHandoff, Busy, IsOpen, ProfileOf;
  }

  lemma LookupGuard(s: State, id: nat, op: Op, ch: Choice)
    requires (op.pc.Replay? || op.pc.Reading?) && Plan(s, id, op, ch).Some?
    ensures KeepsGuard(s, Plan(s, id, op, ch).value)
  {
    hide Matches, Era, PendingHandoff, Busy, IsOpen, ProfileOf;
  }

  lemma RecordGuard(s: State, id: nat, op: Op, ch: Choice)
    requires (op.pc.Recording? || op.pc.Closing? || op.pc.CloseRecord?) && Plan(s, id, op, ch).Some?
    ensures KeepsGuard(s, Plan(s, id, op, ch).value)
  {
    hide Matches, Recorded, Era, PendingHandoff, Busy, IsOpen, ProfileOf;
  }

  lemma EntryGuard(s: State, id: nat, op: Op, ch: Choice)
    requires EntryPc(op.pc) && Plan(s, id, op, ch).Some?
    ensures KeepsGuard(s, Plan(s, id, op, ch).value)
  {
    hide Plan, KeepsGuard;
    if op.pc.Entering? || op.pc.InThread? {
      ComingInGuard(s, id, op, ch);
    } else if op.pc.Replay? || op.pc.Reading? {
      LookupGuard(s, id, op, ch);
    } else {
      RecordGuard(s, id, op, ch);
    }
  }

  lemma ExpiringGuard(s: State, id: nat, op: Op, ch: Choice)
    requires op.pc.Expiring? && Plan(s, id, op, ch).Some? && Guarded(s, op)
    ensures KeepsGuard(s, Plan(s, id, op, ch).value)
  {
    hide Matches, Expired, Era, PendingHandoff, ProfileOf;
    assert forall x :: ProfileOf(ApplyEffect(s, Plan(s, id, op, ch).value.effect), x) == ProfileOf(s, x) by {
      SameProfiles(s, ApplyEffect(s, Plan(s, id, op, ch).value.effect));
    }
  }

  lemma SameProfiles(s: State, s': State)
    requires s'.bindings == s.bindings
    ensures forall t :: ProfileOf(s', t) == ProfileOf(s, t)
  {
  }

  lemma LookingGuard(s: State, id: nat, op: Op, ch: Choice)
    requires (op.pc.Looking? || op.pc.Visited?) && Plan(s, id, op, ch).Some? && Guarded(s, op)
    ensures KeepsGuard(s, Plan(s, id, op, ch).value)
  {
    hide Matches, Era, ProfileOf, IsOpenForViewer;
  }

  lemma LookGuard(s: State, id: nat, op: Op, ch: Choice)
    requires (op.pc.Expiring? || op.pc.Looking? || op.pc.Visited?) && Plan(s, id, op, ch).Some? && Guarded(s, op)
    ensures KeepsGuard(s, Plan(s, id, op, ch).value)
  {
    hide Plan, Guarded, KeepsGuard;
    if op.pc.Expiring? {
      ExpiringGuard(s, id, op, ch);
    } else {
      LookingGuard(s, id, op, ch);
    }
  }

  lemma LaunchingGuard(s: State, id: nat, op: Op, ch: Choice)
    requires op.pc.Launching? && Plan(s, id, op, ch).Some?
    ensures KeepsGuard(s, Plan(s, id, op, ch).value)
  {
    hide Matches, Era, Busy, PendingHandoff, ProfileOf;
  }

  lemma ChosenGuard(s: State, id: nat, op: Op, ch: Choice)
    requires BrowserSessions.ProfilePc(op.pc) && !op.pc.Launching? && Plan(s, id, op, ch).Some? && Guarded(s, op)
    ensures KeepsGuard(s, Plan(s, id, op, ch).value)
  {
    hide Matches, Era, Busy, ProfileOf;
  }

  lemma ProfileGuard(s: State, id: nat, op: Op, ch: Choice)
    requires BrowserSessions.ProfilePc(op.pc) && Plan(s, id, op, ch).Some? && Guarded(s, op)
    ensures KeepsGuard(s, Plan(s, id, op, ch).value)
  {
    hide Plan, Guarded, KeepsGuard;
    if op.pc.Launching? {
      LaunchingGuard(s, id, op, ch);
    } else {
      ChosenGuard(s, id, op, ch);
    }
  }

  /** The operation keeps its session in hand, and nothing but a session object changes. */
  lemma InHand(s: State, op: Op, m: Move)
    requires Guarded(s, op) && m.next.Some? && m.next.value.task == op.task
    requires SessionOf(m.next.value.pc) == SessionOf(op.pc) || SessionOf(m.next.value.pc).None?
    requires !m.next.value.pc.CloseRecord? && !LaunchPc(m.next.value.pc)
    requires ProfileFor(m.next.value.pc).None? || ProfileFor(m.next.value.pc) == ProfileFor(op.pc)
    requires m.next.value.pc.Offering? ==>
        m.effect == SetHuman(m.next.value.pc.gen, true) && m.next.value.pc.gen in s.objs
    requires m.effect.Nothing? || m.effect.MarkClosed? || m.effect.SetHuman? || m.effect.WriteRow? || m.effect.Start?
    ensures KeepsGuard(s, m)
  {
    hide Recorded, Era, PendingHandoff;
  }

  lemma HavePlan(s: State, id: nat, op: Op, ch: Choice)
    requires op.pc.HaveSession? && Plan(s, id, op, ch).Some? && op.pc.gen in s.objs
    ensures var m := Plan(s, id, op, ch).value;
            m.next.Some? ==>
              && m.next.value.task == op.task && SessionOf(m.next.value.pc) == SessionOf(op.pc)
              && !m.next.value.pc.CloseRecord? && !LaunchPc(m.next.value.pc)
              && (ProfileFor(m.next.value.pc).None? || ProfileFor(m.next.value.pc) == ProfileFor(op.pc))
              && (m.next.value.pc.Offering? ==>
                    m.effect == SetHuman(m.next.value.pc.gen, true) && m.next.value.pc.gen in s.objs)
              && (m.effect.Nothing? || m.effect.MarkClosed? || m.effect.SetHuman?)
  {
  }

  lemma HaveGuard(s: State, id: nat, op: Op, ch: Choice)
    requires op.pc.HaveSession? && Plan(s, id, op, ch).Some? && Guarded(s, op) && op.pc.gen in s.objs
    ensures KeepsGuard(s, Plan(s, id, op, ch).value)
  {
    hide Plan, Guarded;
    HavePlan(s, id, op, ch);
    if Plan(s, id, op, ch).value.next.Some? {
      InHand(s, op, Plan(s, id, op, ch).value);
    }
  }

  /** The session in hand has been unregistered, and the operation is done with it. */
  lemma Popped(s: State, op: Op, m: Move)
    requires Guarded(s, op) && m.next.Some? && m.next.value.task == op.task && op.pc.Disposing?
    requires m.effect == Pop(op.pc.gen) && SessionOf(m.next.value.pc).None?
    requires !LaunchPc(m.next.value.pc) && !m.next.value.pc.Offering?
    requires ProfileFor(m.next.value.pc).None? || ProfileFor(m.next.value.pc) == ProfileFor(op.pc)
    ensures KeepsGuard(s, m)
  {
    hide PendingHandoff;
    assert ApplyEffect(s, m.effect).bindings == s.bindings;
  }

  lemma DisposingPlan(s: State, id: nat, op: Op, ch: Choice)
    requires op.pc.Disposing? && Plan(s, id, op, ch).Some?
    ensures var m := Plan(s, id, op, ch).value;
            m.next.Some? ==>
              && m.next.value.task == op.task && m.effect == Pop(op.pc.gen) && SessionOf(m.next.value.pc).None?
              && !LaunchPc(m.next.value.pc) && !m.next.value.pc.Offering?
              && (ProfileFor(m.next.value.pc).None? || ProfileFor(m.next.value.pc) == ProfileFor(op.pc))
  {
  }

  lemma DisposingGuard(s: State, id: nat, op: Op, ch: Choice)
    requires op.pc.Disposing? && Plan(s, id, op, ch).Some? && Guarded(s, op)
    ensures KeepsGuard(s, Plan(s, id, op, ch).value)
  {
    hide Plan, Guarded, KeepsGuard;
    DisposingPlan(s, id, op, ch);
    if Plan(s, id, op, ch).value.next.Some? {
      Popped(s, op, Plan(s, id, op, ch).value);
    } else {
      EndGuard(s, Plan(s, id, op, ch).value);
    }
  }

  lemma ActPlan(s: State, id: nat, op: Op, ch: Choice)
    requires (Acting(op.pc) || op.pc.Offering? || op.pc.Returning? || op.pc.HandRecord?) && Plan(s, id, op, ch).Some?
    ensures var m := Plan(s, id, op, ch).value;
            m.next.Some? ==>
              && m.next.value.task == op.task
              && (SessionOf(m.next.value.pc) == SessionOf(op.pc) || SessionOf(m.next.value.pc).None?)
              && !m.next.value.pc.CloseRecord? && !LaunchPc(m.next.value.pc) && !m.next.value.pc.Offering?
              && ProfileFor(m.next.value.pc).None?
              && (m.effect.Nothing? || m.effect.MarkClosed? || m.effect.WriteRow? || m.effect.Start?)
  {
  }

  lemma ParkedGuard(s: State, id: nat, op: Op, ch: Choice)
    requires op.pc.Parked? && Plan(s, id, op, ch).Some?
    ensures KeepsGuard(s, Plan(s, id, op, ch).value)
  {
    hide PendingHandoff;
  }

  lemma ActGuard(s: State, id: nat, op: Op, ch: Choice)
    requires Acting(op.pc) || op.pc.Offering? || op.pc.Parked? || op.pc.Returning? || op.pc.HandRecord?
    requires Plan(s, id, op, ch).Some? && Guarded(s, op)
    ensures KeepsGuard(s, Plan(s, id, op, ch).value)
  {
    hide Plan, Guarded, KeepsGuard;
    if op.pc.Parked? {
      ParkedGuard(s, id, op, ch);
    } else {
      ActPlan(s, id, op, ch);
      if Plan(s, id, op, ch).value.next.Some? {
        InHand(s, op, Plan(s, id, op, ch).value);
      } else {
        EndGuard(s, Plan(s, id, op, ch).value);
      }
    }
  }

  lemma EndGuard(s: State, m: Move)
    requires m.next.None?
    ensures KeepsGuard(s, m)
  {
  }

  lemma OtherGuard(s: State, id: nat, op: Op, ch: Choice)
    requires (op.pc.Unwatched? || op.pc.Selecting? || op.pc.Removing?) && Plan(s, id, op, ch).Some?
    ensures KeepsGuard(s, Plan(s, id, op, ch).value)
  {
    hide Matches, Era, Busy, PendingHandoff;
  }

  lemma DeleteGuard(s: State, id: nat, op: Op, ch: Choice)
    requires DeletePc(op.pc) && WellFormed(op) && Plan(s, id, op, ch).Some?
    ensures KeepsGuard(s, Plan(s, id, op, ch).value)
  {
    hide Matches, Era, Increasing, PendingHandoff, ProperTargets, ProperKids, Gathered, ApplyEffect;
  }

  lemma PlanKeepsGuard(s: State, id: nat, op: Op, ch: Choice)
    requires WellFormed(op) && ShapeOk(s, op) && Guarded(s, op) && Plan(s, id, op, ch).Some?
    ensures KeepsGuard(s, Plan(s, id, op, ch).value)
  {
    hide Plan, KeepsGuard, Guarded, WellFormed, ActsOnOpen, LaunchesFree;
    if EntryPc(op.pc) {
      EntryGuard(s, id, op, ch);
    } else if op.pc.Expiring? || op.pc.Looking? || op.pc.Visited? {
      LookGuard(s, id, op, ch);
    } else if BrowserSessions.ProfilePc(op.pc) {
      ProfileGuard(s, id, op, ch);
    } else if op.pc.HaveSession? {
      HaveGuard(s, id, op, ch);
    } else if op.pc.Disposing? {
      DisposingGuard(s, id, op, ch);
    } else if Acting(op.pc) || op.pc.Offering? || op.pc.Parked? || op.pc.Returning? || op.pc.HandRecord? {
      ActGuard(s, id, op, ch);
    } else if DeletePc(op.pc) {
      DeleteGuard(s, id, op, ch);
    } else {
      RestPcs(s, id, op, ch);
      OtherGuard(s, id, op, ch);
    }
  }

  lemma RestPcs(s: State, id: nat, op: Op, ch: Choice)
    requires Plan(s, id, op, ch).Some? && WellFormed(op) && !EntryPc(op.pc) && !DeletePc(op.pc)
    requires !(op.pc.Expiring? || op.pc.Looking? || op.pc.Visited?)
    requires !BrowserSessions.ProfilePc(op.pc)
    requires !(op.pc.HaveSession? || op.pc.Disposing? || Acting(op.pc))
    requires !(op.pc.Offering? || op.pc.Parked? || op.pc.Returning? || op.pc.HandRecord?)
    ensures op.pc.Unwatched? || op.pc.Selecting? || op.pc.Removing?
  {
    hide Matches, Era, Increasing, PendingHandoff, ProperTargets, ProperKids, Gathered, Busy;
  }

  // ---------------------------------------------------------------- everybody else's

  lemma GuardedHolds(op: Op)
    requires ThreadOf(op.task).Some? && !Unguarded(op)
    ensures Holds(op, ThreadKey(ThreadOf(op.task).value))
    ensures op.pc.Offering? ==> Holds(op, SessionKey(op.pc.gen))
  {
  }

  /** Which threads' sessions and waiting handoffs an effect adds, and which sessions it takes from human hands. */
  ghost predicate Adds(s: State, s': State, thread: Option<string>, gen: Option<nat>) {
    && (forall t :: t in s'.sessions && !(t in s.sessions && s'.sessions[t] == s.sessions[t]) ==> thread == Some(t))
    && (forall t :: PendingHandoff(s', t) && !PendingHandoff(s, t) ==> thread == Some(t))
    && (forall g :: g in s.objs && s.objs[g].human && !(g in s'.objs && s'.objs[g].human) ==> gen == Some(g))
    && (forall t :: ProfileOf(s', t) != ProfileOf(s, t) && ProfileOf(s', t) != Private(t) ==> thread == Some(t))
  }

  lemma SessionEffectAdds(s: State, e: Effect)
    requires e.Insert? || e.SetHuman? || e.MarkClosed? || e.Pop?
    requires e.Insert? ==> e.gen !in s.objs
    ensures Adds(s, ApplyEffect(s, e), if e.Insert? then Some(e.thread) else None,
        if e.SetHuman? then Some(e.gen) else None)
  {
    var s' := ApplyEffect(s, e);
    assert s'.journal == s.journal;
    assert forall t :: PendingHandoff(s', t) == PendingHandoff(s, t);
    hide PendingHandoff;
  }

  lemma RowEffectAdds(s: State, e: Effect)
    requires e.WriteRow? || e.Complete? || e.ExpireRows? || e.Commit?
    requires e.Complete? ==> e.row.status.Completed?
    ensures Adds(s, ApplyEffect(s, e), if e.WriteRow? then Some(e.call.thread) else None, None)
  {
    hide Matches, Era;
    var s' := ApplyEffect(s, e);
    assert s'.sessions == s.sessions && s'.objs == s.objs;
    forall t | PendingHandoff(s', t) && !PendingHandoff(s, t) ensures e.WriteRow? && e.call.thread == t {
      var c :| c in s'.journal && c.thread == t && s'.journal[c].status.HandedOff?;
    }
  }

  lemma OtherEffectAdds(s: State, e: Effect)
    requires !e.Insert? && !e.SetHuman? && !e.MarkClosed? && !e.Pop?
    requires !e.WriteRow? && !e.Complete? && !e.ExpireRows? && !e.Commit?
    ensures Adds(s, ApplyEffect(s, e), if e.Bind? then Some(e.thread) else None, None)
  {
    NoLogOrSessions(s, e);
    BindingsAfter(s, e);
    hide ApplyEffect, PendingHandoff, ProfileOf;
  }

  lemma BindingsAfter(s: State, e: Effect)
    requires !e.Insert? && !e.SetHuman? && !e.MarkClosed? && !e.Pop?
    requires !e.WriteRow? && !e.Complete? && !e.ExpireRows? && !e.Commit?
    ensures var s' := ApplyEffect(s, e);
            forall t :: ProfileOf(s', t) != ProfileOf(s, t) && ProfileOf(s', t) != Private(t) ==>
              e.Bind? && e.thread == t
  {
    hide Matches, Era;
  }

  lemma MayAdd(s: State, id: nat, op: Op, m: Move)
    requires Lawful(s, id, op, m) && Entitled(s, op, m) && Faithful(s, op, m)
    ensures m.effect.Insert? ==> InsideOf(op, m.effect.thread) && m.effect.gen !in s.objs
    ensures m.effect.WriteRow? ==> InsideOf(op, m.effect.call.thread)
    ensures m.effect.Bind? ==> InsideOf(op, m.effect.thread)
    ensures m.effect.SetHuman? ==> Holds(op, SessionKey(m.effect.gen))
    ensures m.effect.Complete? ==> m.effect.row.status.Completed?
  {
    hide EntersLawfully, StagesLawfully, ClosesLawfully, ShapeOk, KnowsRow, FreshPc, RunningPc, HandedPc, InsideOf;
  }

  /** What a move changes of what the guards speak of. */
  lemma MoveChanges(s: State, id: nat, m: Move) returns (thread: Option<string>, gen: Option<nat>)
    requires id in s.ops && Lawful(s, id, s.ops[id], m) && Entitled(s, s.ops[id], m) && Faithful(s, s.ops[id], m)
    ensures Adds(s, ApplyEffect(s, m.effect), thread, gen)
    ensures thread.Some? ==> InsideOf(s.ops[id], thread.value)
    ensures gen.Some? ==> Holds(s.ops[id], SessionKey(gen.value))
  {
    var e := m.effect;
    MayAdd(s, id, s.ops[id], m);
    hide Lawful, Entitled, Faithful, ApplyEffect, InsideOf, Holds, Adds;
    thread := if e.Insert? || e.Bind? then Some(e.thread) else if e.WriteRow? then Some(e.call.thread) else None;
    gen := if e.SetHuman? then Some(e.gen) else None;
    if e.Insert? || e.SetHuman? || e.MarkClosed? || e.Pop? {
      SessionEffectAdds(s, e);
    } else if e.WriteRow? || e.Complete? || e.ExpireRows? || e.Commit? {
      RowEffectAdds(s, e);
    } else {
      OtherEffectAdds(s, e);
    }
  }

  lemma NoLogOrSessions(s: State, e: Effect)
    requires !e.Insert? && !e.SetHuman? && !e.MarkClosed? && !e.Pop?
    requires !e.WriteRow? && !e.Complete? && !e.ExpireRows? && !e.Commit?
    ensures var s' := ApplyEffect(s, e);
            && s'.sessions == s.sessions && s'.objs == s.objs && s'.journal == s.journal
            && forall t :: PendingHandoff(s', t) == PendingHandoff(s, t)
  {
    hide Matches, Era;
  }

  lemma MoveKeepsOtherGuard(s: State, id: nat, m: Move, o: nat)
    requires Mutex(s) && id in s.ops && o in s.ops && o != id && Guarded(s, s.ops[o])
    requires Lawful(s, id, s.ops[id], m) && Entitled(s, s.ops[id], m) && Faithful(s, s.ops[id], m)
    ensures Guarded(ApplyEffect(s, m.effect), s.ops[o])
  {
    hide ApplyEffect, Lawful, Entitled, Faithful, Holds, PendingHandoff, InsideOf;
    var other := s.ops[o];
    if ThreadOf(other.task).Some? && !Unguarded(other) {
      var t := ThreadOf(other.task).value;
      GuardedHolds(other);
      var thread, gen := MoveChanges(s, id, m);
      if thread == Some(t) {
        InsideHolds(s.ops[id], t);
      }
      assert thread != Some(t);
    } else if Unguarded(other) {
      UnguardedOk(ApplyEffect(s, m.effect), other);
    }
  }

  // ---------------------------------------------------------------- steps

  /** What the guards read. */
  ghost predicate SameGuards(s: State, s': State) {
    s'.sessions == s.sessions && s'.objs == s.objs && s'.journal == s.journal && s'.bindings == s.bindings
  }

  lemma SameGuardsKeep(s: State, s': State, op: Op)
    requires SameGuards(s, s')
    ensures Guarded(s, op) <==> Guarded(s', op)
  {
    assert forall t :: PendingHandoff(s, t) == PendingHandoff(s', t) && ProfileOf(s, t) == ProfileOf(s', t);
    hide PendingHandoff, ProfileOf;
  }

  lemma EffectGuardsIgnoreOps(s: State, s1: State, e: Effect)
    requires s1 == s.(ops := s1.ops)
    ensures SameGuards(ApplyEffect(s, e), ApplyEffect(s1, e))
  {
    hide ApplyEffect;
    EffectIgnoresOps(s, s1, e);
    LogIgnoresOps(s, s1, e);
    BindingsIgnoreOps(s, s1, e);
  }

  lemma BindingsIgnoreOps(s: State, s1: State, e: Effect)
    requires s1 == s.(ops := s1.ops)
    ensures ApplyEffect(s, e).bindings == ApplyEffect(s1, e).bindings
  {
    if !e.Bind? && !e.DropProfile? && !e.Commit? {
      hide ApplyEffect;
      BindingsUntouched(s, e);
      BindingsUntouched(s1, e);
    } else {
      hide Matches, Era, Kept;
    }
  }

  lemma PerformKeepsGuards(s: State, id: nat, m: Move)
    requires GuardsOk(s) && Mutex(s) && id in s.ops && KeepsGuard(s, m)
    requires Lawful(s, id, s.ops[id], m) && Entitled(s, s.ops[id], m) && Faithful(s, s.ops[id], m)
    ensures GuardsOk(Perform(s, id, m))
  {
    hide ApplyEffect, Lawful, Entitled, Faithful, Guarded, Mutex, Comes;
    var s1 := s.(ops := match m.next case None => s.ops - {id} case Some(next) => s.ops[id := next]);
    var s0, s' := ApplyEffect(s, m.effect), Perform(s, id, m);
    EffectGuardsIgnoreOps(s, s1, m.effect);
    LawfulKids(s, id, s.ops[id], m);
    OpsAfter(s, id, m);
    forall o | o in s'.ops ensures Guarded(s', s'.ops[o]) {
      SameGuardsKeep(s0, s', s'.ops[o]);
      ComesFrom(s, id, m, o, s'.ops[o]);
      if o in s.ops && o != id && s'.ops[o] == s.ops[o] {
        MoveKeepsOtherGuard(s, id, m, o);
      } else if !(o == id && m.next == Some(s'.ops[o])) {
        NoThread(s', s'.ops[o]);
      }
    }
  }

  lemma LawfulKids(s: State, id: nat, op: Op, m: Move)
    requires Lawful(s, id, op, m)
    ensures m.effect.FailParent? ==> m.next.None?
    ensures m.effect.SpawnAll? ==> forall k :: k in m.effect.kids ==> k !in s.ops && m.effect.kids[k].task.CloseOne?
  {
    hide Matches, Gathered;
  }

  lemma ComesFrom(s: State, id: nat, m: Move, o: nat, op: Op)
    requires Comes(s, id, m, o, op)
    requires m.effect.SpawnAll? ==> forall k :: k in m.effect.kids ==> k !in s.ops && m.effect.kids[k].task.CloseOne?
    ensures || (o != id && o in s.ops && op == s.ops[o]) || (o == id && m.next == Some(op))
            || (o != id && (op.task.CloseOne? || op.pc.GatherFailed?)) || op.task.CloseOne?
  {
  }

  lemma NoThread(s: State, op: Op)
    requires op.task.CloseOne? || op.pc.GatherFailed?
    ensures Guarded(s, op)
  {
  }

  lemma AbortKeepsGuard(s: State, op: Op, ch: Choice)
    ensures KeepsGuard(s, Abort(op, ch))
  {
    hide Matches, ApplyEffect;
  }

  lemma StepKeepsGuards(s: State, s': State, id: nat, ch: Choice)
    requires GuardsOk(s) && SessionsOk(s) && LocksOk(s) && JournalOk(s)
    requires Work(s, s', id, ch) || Aborts(s, s', id, ch)
    ensures GuardsOk(s')
  {
    hide Plan, Perform, Abort, Lawful, Entitled, Faithful, KnowsRow, ShapeOk, Guarded, KeepsGuard, WellFormed, Mutex,
        StartsRecorded, AnswersRecorded, SessionMaps;
    var op := s.ops[id];
    if Work(s, s', id, ch) {
      PlanLawful(s, id, op, ch);
      PlanEntitled(s, id, op, ch);
      PlanFaithful(s, id, op, ch);
      PlanKeepsGuard(s, id, op, ch);
      PerformKeepsGuards(s, id, Plan(s, id, op, ch).value);
    } else {
      AbortLawful(s, id, op, ch);
      AbortEntitled(s, op, ch);
      AbortFaithful(s, op, ch);
      AbortKeepsGuard(s, op, ch);
      PerformKeepsGuards(s, id, Abort(op, ch));
    }
  }

  lemma InitialGuarded(s: State, task: Task)
    requires !task.CloseOne? && !task.Finishing?
    ensures Guarded(s, Initial(task))
  {
  }

  lemma GrantedGuarded(s: State, op: Op)
    requires Guarded(s, op) && WellFormed(op) && Wants(op).Some?
    ensures Guarded(s, Granted(op))
  {
    hide PendingHandoff;
  }

  lemma SpawnKeepsGuards(s: State, s': State, id: nat, task: Task)
    requires GuardsOk(s) && Spawn(s, s', id, task)
    ensures GuardsOk(s')
  {
    hide Guarded, Initial;
    InitialGuarded(s', task);
    forall o | o in s'.ops ensures Guarded(s', s'.ops[o]) {
      SameGuardsKeep(s, s', s'.ops[o]);
    }
  }

  lemma GrantKeepsGuards(s: State, s': State, id: nat)
    requires GuardsOk(s) && AllWellFormed(s) && Grant(s, s', id)
    ensures GuardsOk(s')
  {
    hide Guarded, Wants, Granted, WellFormed, Holds;
    GrantedGuarded(s, s.ops[id]);
    forall o | o in s'.ops ensures Guarded(s', s'.ops[o]) {
      SameGuardsKeep(s, s', s'.ops[o]);
    }
  }

  lemma OutsideKeepsGuards(s: State, s': State, name: string, token: nat)
    requires GuardsOk(s) && (Outside(s, s', name, token) || s' == Crash(s))
    ensures GuardsOk(s')
  {
    hide Guarded;
    forall o | o in s'.ops ensures Guarded(s', s'.ops[o]) {
      SameGuardsKeep(s, s', s'.ops[o]);
    }
  }

  lemma NextKeepsGuards(s: State, s': State)
    requires GuardsOk(s) && SessionsOk(s) && LocksOk(s) && JournalOk(s) && Next(s, s')
    ensures GuardsOk(s')
  {
    hide Spawn, Grant, Work, Aborts, Outside, Crash, GuardsOk, SessionsOk, JournalOk, Mutex, AllWellFormed;
    if id, task :| Spawn(s, s', id, task) {
      SpawnKeepsGuards(s, s', id, task);
    } else if id :| Grant(s, s', id) {
      GrantKeepsGuards(s, s', id);
    } else if id, ch :| Work(s, s', id, ch) {
      StepKeepsGuards(s, s', id, ch);
    } else if id, ch :| Aborts(s, s', id, ch) {
      StepKeepsGuards(s, s', id, ch);
    } else if name, token :| Outside(s, s', name, token) {
      OutsideKeepsGuards(s, s', name, token);
    } else {
      OutsideKeepsGuards(s, s', "", 0);
    }
  }

  // ---------------------------------------------------------------- every reachable state

  lemma {:induction false} RunGuardsOk(run: seq<State>, i: nat)
    requires Run(run) && i < |run|
    ensures GuardsOk(run[i])
  {
    hide Run, Next, SessionsOk, JournalOk, Mutex, AllWellFormed;
    if i == 0 {
      StartsEmpty(run);
    } else {
      RunGuardsOk(run, i - 1);
      RunSessionsOk(run, i - 1);
      RunJournalOk(run, i - 1);
      RunStep(run, i - 1);
      NextKeepsGuards(run[i - 1], run[i]);
    }
  }

  lemma StartsEmpty(run: seq<State>)
    requires Run(run)
    ensures run[0].ops == map[]
  {
    hide Next;
  }

  /** When the close of a session is recorded, its conversation has none. */
  lemma ClosedMeansClosed(run: seq<State>, i: nat, id: nat)
    requires Run(run) && i < |run| && id in run[i].ops && run[i].ops[id].pc.CloseRecord?
    requires ThreadOf(run[i].ops[id].task).Some?
    ensures ThreadOf(run[i].ops[id].task).value !in run[i].sessions
  {
    hide Run;
    RunGuardsOk(run, i);
    assert Guarded(run[i], run[i].ops[id]);
  }

  lemma ClosesPlan(s: State, id: nat, op: Op, ch: Choice)
    requires op.task.Close? || op.task.Release?
    requires op.pc.Closing? || op.pc.Disposing?
    requires Plan(s, id, op, ch).Some? && Plan(s, id, op, ch).value.next.None? && Guarded(s, op)
    requires op.pc.Disposing? ==> op.pc.why.ToClose?
    ensures op.task.thread !in ApplyEffect(s, Plan(s, id, op, ch).value.effect).sessions
  {
    hide PendingHandoff;
  }

  /** And it has none when a request to close or release it ends by its own step. */
  lemma CloseLeavesNothing(run: seq<State>, i: nat, id: nat, ch: Choice)
    requires Run(run) && i + 1 < |run| && Work(run[i], run[i + 1], id, ch)
    requires run[i].ops[id].task.Close? || run[i].ops[id].task.Release?
    requires run[i].ops[id].pc.Closing? || (run[i].ops[id].pc.Disposing? && run[i].ops[id].pc.why.ToClose?)
    requires Plan(run[i], id, run[i].ops[id], ch).value.next.None?
    ensures run[i].ops[id].task.thread !in run[i + 1].sessions
  {
    hide Run, Plan, ApplyEffect;
    RunGuardsOk(run, i);
    var s := run[i];
    ClosesPlan(s, id, s.ops[id], ch);
    EffectGuardsIgnoreOps(s, s.(ops := s.ops - {id}), Plan(s, id, s.ops[id], ch).value.effect);
  }

  /** No session is launched for a conversation while one of its handoffs waits for the user. */
  lemma NoLaunchWhileHandoffWaits(run: seq<State>, i: nat, id: nat, ch: Choice)
    requires Run(run) && i < |run| && id in run[i].ops
    requires Plan(run[i], id, run[i].ops[id], ch).Some? && Plan(run[i], id, run[i].ops[id], ch).value.effect.Insert?
    ensures forall c :: c in run[i].journal && c.thread == Plan(run[i], id, run[i].ops[id], ch).value.effect.thread ==>
              !run[i].journal[c].status.HandedOff?
  {
    hide Run, Plan, SessionMaps;
    RunGuardsOk(run, i);
    RunSessionsOk(run, i);
    PlanEntitled(run[i], id, run[i].ops[id], ch);
    assert Guarded(run[i], run[i].ops[id]);
  }

  /** A session is in human hands before its handoff is recorded. */
  lemma OfferedToHuman(run: seq<State>, i: nat, id: nat)
    requires Run(run) && i < |run| && id in run[i].ops && run[i].ops[id].pc.Offering?
    requires ThreadOf(run[i].ops[id].task).Some?
    ensures run[i].ops[id].pc.gen in run[i].objs && run[i].objs[run[i].ops[id].pc.gen].human
  {
    hide Run;
    RunGuardsOk(run, i);
    assert Guarded(run[i], run[i].ops[id]);
  }

  /** A launch opens the profile that its conversation is bound to, or else a named one that it was bound to when the
      launch began. */
  lemma LaunchOpensBoundProfile(run: seq<State>, i: nat, id: nat, ch: Choice)
    requires Run(run) && i < |run| && id in run[i].ops
    requires Plan(run[i], id, run[i].ops[id], ch).Some? && Plan(run[i], id, run[i].ops[id], ch).value.effect.Insert?
    ensures var e := Plan(run[i], id, run[i].ops[id], ch).value.effect;
            var bindings := run[i].bindings;
            if e.thread in bindings && bindings[e.thread].Some? then e.profile == Named(bindings[e.thread].value)
            else e.profile == Private(e.thread) || e.profile.Named?
  {
    hide Run, PendingHandoff, Plan, SessionMaps;
    RunGuardsOk(run, i);
    RunSessionsOk(run, i);
    PlanEntitled(run[i], id, run[i].ops[id], ch);
    assert Guarded(run[i], run[i].ops[id]);
  }

  // ---------------------------------------------------------------- selecting and deleting profiles

  lemma BindPlan(s: State, id: nat, op: Op, ch: Choice)
    requires Guarded(s, op) && Plan(s, id, op, ch).Some? && Plan(s, id, op, ch).value.effect.Bind?
    ensures var e := Plan(s, id, op, ch).value.effect;
            && op.task == Select(e.thread, e.chosen) && Plan(s, id, op, ch).value.next.None?
            && (e.chosen.Some? ==> e.chosen.value in s.profiles) && (e.chosen.None? ==> e.thread !in s.sessions)
  {
    hide Matches, Busy, IsOpen, PendingHandoff, ProperKids, ProperTargets, Gathered, ProfileOf;
  }

  /** A selection binds exactly what was asked for: a named profile that exists, or none while there is no session. */
  lemma SelectBinds(run: seq<State>, i: nat, id: nat, ch: Choice)
    requires Run(run) && i + 1 < |run| && Work(run[i], run[i + 1], id, ch)
    requires Plan(run[i], id, run[i].ops[id], ch).value.effect.Bind?
    ensures var task := run[i].ops[id].task;
            && task.Select? && run[i + 1].bindings == run[i].bindings[task.thread := task.profile]
            && (task.profile.Some? ==> task.profile.value in run[i].profiles)
            && (task.profile.None? ==> task.thread !in run[i].sessions)
  {
    hide Run, Plan, Guarded;
    RunGuardsOk(run, i);
    BindPlan(run[i], id, run[i].ops[id], ch);
  }

  lemma DropPlan(s: State, id: nat, op: Op, ch: Choice)
    requires op.pc.Removing? && op.task.DeleteProfile?
    ensures Plan(s, id, op, ch) == Some(Move(None, DropProfile(op.task.id)))
  {
  }

  /** The deletion of a profile removes it, unbinds it everywhere, and touches no other binding. */
  lemma DeletedProfileUnbound(s: State, s': State, id: nat, ch: Choice)
    requires Work(s, s', id, ch) && s.ops[id].pc.Removing? && s.ops[id].task.DeleteProfile?
    ensures var p := s.ops[id].task.id;
            && s'.profiles == s.profiles - {p} && s'.bindings.Keys == s.bindings.Keys
            && forall t :: t in s.bindings ==>
                 s'.bindings[t] == if s.bindings[t] == Some(p) then None else s.bindings[t]
  {
    hide Plan;
    DropPlan(s, id, s.ops[id], ch);
  }

  /** A viewer's ticket is for the open session of the conversation that it was asked for. */
  lemma TicketForOpenSession(s: State, id: nat, op: Op, ch: Choice)
    requires Plan(s, id, op, ch).Some? && Plan(s, id, op, ch).value.effect.IssueTicket?
    ensures var e := Plan(s, id, op, ch).value.effect;
            && op.task == Visit(e.thread, Ticket) && e.thread in s.sessions && s.sessions[e.thread] == e.gen
            && e.gen in s.objs && !s.objs[e.gen].closed
  {
    hide Matches, Busy, IsOpen, PendingHandoff, ProperKids, ProperTargets, Gathered;
  }

  // ---------------------------------------------------------------- marks

  /** Every mark belongs to a deletion that is under way. */
  ghost predicate NoStaleMarks(s: State) {
    forall t :: t in s.deleting ==> exists d :: Marker(s, d, t)
  }

  predicate Marker(s: State, d: nat, t: string) {
    d in s.ops && s.ops[d].task == DeleteThread(t) && Past(s.ops[d])
  }

  /** A deletion that has marked its thread goes on, or takes its mark away. */
  predicate Unmarks(op: Op, m: Move) {
    Past(op) ==>
      if m.next.Some? then m.next.value.task == op.task && Past(m.next.value) && !m.effect.Unmark?
      else m.effect == Unmark(op.task.thread)
  }

  lemma PlanUnmarks(s: State, id: nat, op: Op, ch: Choice)
    requires WellFormed(op) && Plan(s, id, op, ch).Some?
    ensures Unmarks(op, Plan(s, id, op, ch).value)
  {
    if Past(op) {
      DeleteStages(op);
      DeletionPlan(s, id, op, ch);
      hide Plan, ProperTargets, ProperKids, Gathered;
    } else {
      hide Plan;
    }
  }

  lemma DeleteStages(op: Op)
    requires WellFormed(op) && op.task.DeleteThread?
    ensures DeletePc(op.pc)
  {
    hide Increasing;
  }

  lemma AbortUnmarks(op: Op, ch: Choice)
    requires WellFormed(op)
    ensures Unmarks(op, Abort(op, ch))
  {
    hide Increasing;
  }

  lemma PerformKeepsMarks(s: State, id: nat, m: Move)
    requires NoStaleMarks(s) && id in s.ops && Lawful(s, id, s.ops[id], m) && Unmarks(s.ops[id], m)
    ensures NoStaleMarks(Perform(s, id, m))
  {
    hide ApplyEffect, Lawful;
    var op, s' := s.ops[id], Perform(s, id, m);
    var s1 := s.(ops := match m.next case None => s.ops - {id} case Some(next) => s.ops[id := next]);
    LawfulKids(s, id, op, m);
    OpsAfter(s, id, m);
    MarksAfter(s, id, op, s1, m);
    forall t | t in s'.deleting ensures exists d :: Marker(s', d, t) {
      if t in s.deleting {
        var d :| Marker(s, d, t);
        if d == id {
          assert m.next.Some?;
          NextStays(s, id, m);
        } else {
          assert Comes(s, id, m, d, s'.ops[d]);
        }
        assert Marker(s', d, t);
      } else {
        NextStays(s, id, m);
        assert Marker(s', id, t);
      }
    }
  }

  lemma NextStays(s: State, id: nat, m: Move)
    requires id in s.ops && m.next.Some? && (m.effect.FailParent? ==> m.next.None?)
    requires m.effect.SpawnAll? ==> forall k :: k in m.effect.kids ==> k !in s.ops
    ensures id in Perform(s, id, m).ops && Perform(s, id, m).ops[id] == m.next.value
  {
    hide ApplyEffect;
    OpsAfter(s, id, m);
    assert Comes(s, id, m, id, Perform(s, id, m).ops[id]);
  }

  lemma MarksAfter(s: State, id: nat, op: Op, s1: State, m: Move)
    requires Lawful(s, id, op, m) && s1.deleting == s.deleting
    ensures forall t :: t in ApplyEffect(s1, m.effect).deleting ==>
              (t in s.deleting && m.effect != Unmark(t))
              || (op.task == DeleteThread(t) && m.next == Some(Op(op.task, Marked)))
  {
    hide EntersLawfully, StagesLawfully, ClosesLawfully, Matches, Era, Kept, Recorded, Expired, ProperKids, Gathered;
    if !m.effect.Mark? && !m.effect.Unmark? {
      hide ApplyEffect;
      MarksUntouched(s1, m.effect);
    }
  }

  lemma StepKeepsMarks(s: State, s': State, id: nat, ch: Choice)
    requires NoStaleMarks(s) && AllWellFormed(s) && (Work(s, s', id, ch) || Aborts(s, s', id, ch))
    ensures NoStaleMarks(s')
  {
    hide Plan, Abort, Perform, Lawful, WellFormed, Marker, NoStaleMarks, Unmarks;
    if Work(s, s', id, ch) {
      PlanLawful(s, id, s.ops[id], ch);
      PlanUnmarks(s, id, s.ops[id], ch);
      PerformKeepsMarks(s, id, Plan(s, id, s.ops[id], ch).value);
    } else {
      AbortLawful(s, id, s.ops[id], ch);
      AbortUnmarks(s.ops[id], ch);
      PerformKeepsMarks(s, id, Abort(s.ops[id], ch));
    }
  }

  lemma SpawnKeepsMarks(s: State, s': State, id: nat, task: Task)
    requires NoStaleMarks(s) && Spawn(s, s', id, task)
    ensures NoStaleMarks(s')
  {
    hide Initial, Marker;
    forall t, d | Marker(s, d, t) ensures Marker(s', d, t) { MarkerStays(s, s', d, t); }
  }

  lemma GrantKeepsMarks(s: State, s': State, id: nat)
    requires NoStaleMarks(s) && Grant(s, s', id)
    ensures NoStaleMarks(s')
  {
    hide Granted, Wants, Holds, Marker;
    forall t, d | Marker(s, d, t) ensures Marker(s', d, t) { GrantKeepsMarker(s, s', id, d, t); }
  }

  lemma OutsideKeepsMarks(s: State, s': State, name: string, token: nat)
    requires NoStaleMarks(s) && (Outside(s, s', name, token) || s' == Crash(s))
    ensures NoStaleMarks(s')
  {
    hide Marker;
    if Outside(s, s', name, token) {
      forall t, d | Marker(s, d, t) ensures Marker(s', d, t) { MarkerStays(s, s', d, t); }
    }
  }

  lemma NextKeepsMarks(s: State, s': State)
    requires NoStaleMarks(s) && LocksOk(s) && Next(s, s')
    ensures NoStaleMarks(s')
  {
    hide Spawn, Grant, Work, Aborts, Outside, Crash, NoStaleMarks, Mutex, AllWellFormed;
    if id, task :| Spawn(s, s', id, task) {
      SpawnKeepsMarks(s, s', id, task);
    } else if id :| Grant(s, s', id) {
      GrantKeepsMarks(s, s', id);
    } else if id, ch :| Work(s, s', id, ch) {
      StepKeepsMarks(s, s', id, ch);
    } else if id, ch :| Aborts(s, s', id, ch) {
      StepKeepsMarks(s, s', id, ch);
    } else if name, token :| Outside(s, s', name, token) {
      OutsideKeepsMarks(s, s', name, token);
    } else {
      OutsideKeepsMarks(s, s', "", 0);
    }
  }

  lemma MarkerStays(s: State, s': State, d: nat, t: string)
    requires Marker(s, d, t) && forall o :: o in s.ops ==> o in s'.ops && s'.ops[o] == s.ops[o]
    ensures Marker(s', d, t)
  {
  }

  lemma GrantKeepsMarker(s: State, s': State, id: nat, d: nat, t: string)
    requires Grant(s, s', id) && Marker(s, d, t)
    ensures Marker(s', d, t)
  {
    hide Holds;
  }

  lemma NoMarks(s: State)
    requires s.deleting == {}
    ensures NoStaleMarks(s)
  {
  }

  /** In every reachable state a mark belongs to a deletion that is under way, so no conversation stays closed. */
  lemma {:induction false} MarksEndWithDeletions(run: seq<State>, i: nat)
    requires Run(run) && i < |run|
    ensures NoStaleMarks(run[i])
  {
    hide Next, NoStaleMarks, Mutex, AllWellFormed;
    if i == 0 {
      NoMarks(run[0]);
    } else {
      MarksEndWithDeletions(run, i - 1);
      RunLocksOk(run, i - 1);
      NextKeepsMarks(run[i - 1], run[i]);
    }
  }
}
