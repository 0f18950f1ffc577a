/** Sessions and login profiles: exclusive profiles, no overwritten session, and no action on a session
    that is closed or in human hands. */
module BrowserSessions {
  import opened Prelude
  import opened BrowserModel
  import opened BrowserLocks

  // ---------------------------------------------------------------- invariants

  ghost predicate Registered(s: State) {
    forall t :: t in s.sessions ==> s.sessions[t] in s.objs && s.objs[s.sessions[t]].thread == t
  }

  /** A session that is not closed is the registered one of its thread. */
  ghost predicate OpenRegistered(s: State) {
    forall g :: g in s.objs && !s.objs[g].closed ==> s.objs[g].thread in s.sessions && s.sessions[s.objs[g].thread] == g
  }

  /** The profile key of a thread's registered session. */
  function KeyOf(s: State, t: string): Option<Profile> {
    if t in s.sessions && s.sessions[t] in s.objs then Some(s.objs[s.sessions[t]].profile) else None
  }

  /** No two registered sessions have the same profile key, and a named profile in use exists. */
  ghost predicate ProfilesExclusive(s: State) {
    && (forall t, u :: KeyOf(s, t).Some? && KeyOf(s, t) == KeyOf(s, u) ==> t == u)
    && (forall t :: KeyOf(s, t).Some? && KeyOf(s, t).value.Named? ==> KeyOf(s, t).value.id in s.profiles)
  }

  ghost predicate SessionMaps(s: State) {
    Registered(s) && OpenRegistered(s) && ProfilesExclusive(s)
  }

  /** The session that an operation is concerned with. */
  function SessionOf(pc: Pc): Option<nat> {
    if pc.AtSession? then Some(pc.gen) else SessionHeld(pc)
  }

  predicate Acting(pc: Pc) {
    pc.Arming? || pc.Ready? || pc.Driving? || pc.Driven?
  }

  /** What the segments of an operation have established, and what its locks keep true since. */
  ghost predicate ShapeOk(s: State, op: Op) {
    && KnownSession(s, op) && ActsOnOpen(s, op) && LaunchesFree(s, op)
  }

  ghost predicate KnownSession(s: State, op: Op) {
    && (SessionOf(op.pc).Some? ==>
          && SessionOf(op.pc).value in s.objs
          && (ThreadOf(op.task).Some? ==> s.objs[SessionOf(op.pc).value].thread == ThreadOf(op.task).value))
    && (op.pc.Disposing? ==> s.objs[op.pc.gen].closed)
    && (op.pc.Unwatched? ==> op.pc.gen in s.objs && s.objs[op.pc.gen].closed)
  }

  ghost predicate ActsOnOpen(s: State, op: Op) {
    Acting(op.pc) ==> IsOpen(s, op.pc.gen)
  }

  ghost predicate LaunchesFree(s: State, op: Op) {
    && ((op.pc.AtProfile? || op.pc.HaveProfile? || op.pc.Launching?) && ThreadOf(op.task).Some? ==>
        ThreadOf(op.task).value !in s.sessions)
    && (op.pc.Launching? ==> !Busy(s, op.pc.profile) && (op.pc.profile.Named? ==> op.pc.profile.id in s.profiles))
    && (op.pc.Removing? && op.task.DeleteProfile? ==> !Busy(s, Named(op.task.id)))
  }

  ghost predicate SessionsOk(s: State) {
    SessionMaps(s) && forall o :: o in s.ops ==> ShapeOk(s, s.ops[o])
  }

  // ---------------------------------------------------------------- who may do what

  predicate BookEffect(e: Effect) {
    e.Insert? || e.MarkClosed? || e.SetHuman? || e.Pop? || e.DropProfile?
  }

  /** The operation is entitled to the effect: it has found what the effect needs, and it holds the locks
      that protect what the effect changes. */
  ghost predicate Entitled(s: State, op: Op, m: Move) {
    match m.effect
    case Insert(t, g, p) => op.pc == Launching(p) && ThreadOf(op.task) == Some(t) && g !in s.objs
        && (m.next.Some? ==> m.next.value.pc == AtSession(g, ToUse))
    case MarkClosed(g) => SessionHeld(op.pc) == Some(g) && m.next.Some? && m.next.value.pc.Disposing?
        && m.next.value.pc.gen == g
    case SetHuman(g, h) => SessionHeld(op.pc) == Some(g)
        && (m.next.Some? ==>
            !Acting(m.next.value.pc) && SessionHeld(m.next.value.pc) == Some(g) && !m.next.value.pc.Disposing?)
    case Pop(g) => (op.pc.Disposing? || op.pc.Unwatched?) && op.pc.gen == g && (m.next.Some? ==> Plain(m.next.value.pc))
    case DropProfile(id) => op.pc.Removing? && op.task == DeleteProfile(id) && m.next.None?
    case SpawnAll(kids) =>
      && (forall k :: k in kids ==>
          kids[k].task.CloseOne? && kids[k].pc == AtSession(kids[k].task.gen, ToClose) && kids[k].task.gen in s.objs)
      && m.next.Some? && Plain(m.next.value.pc)
    case _ => m.next.Some? ==> (m.next.value.task == op.task || m.next.value.pc.Unwatched?) && ShapeOk(s, m.next.value)
  }

  /** A program counter that says nothing about sessions. */
  predicate Plain(pc: Pc) {
    && SessionOf(pc).None? && !pc.Unwatched?
    && !pc.AtProfile? && !pc.HaveProfile? && !pc.Launching? && !pc.Removing?
  }

  predicate EntryPc(pc: Pc) {
    pc.Entering? || pc.InThread? || pc.Replay? || pc.Recording? || pc.Closing? || pc.CloseRecord? || pc.Reading?
  }

  lemma EnteringEntitled(s: State, id: nat, op: Op, ch: Choice)
    requires (op.pc.Entering? || op.pc.InThread? || op.pc.Replay?) && Plan(s, id, op, ch).Some?
    ensures Entitled(s, op, Plan(s, id, op, ch).value)
  {
    hide Matches, Busy, IsOpen;
  }

  lemma ClosingEntitled(s: State, id: nat, op: Op, ch: Choice)
    requires (op.pc.Closing? || op.pc.Reading?) && Registered(s) && Plan(s, id, op, ch).Some?
    ensures Entitled(s, op, Plan(s, id, op, ch).value)
  {
    hide Busy, IsOpen;
  }

  lemma RecordingEntitled(s: State, id: nat, op: Op, ch: Choice)
    requires (op.pc.Recording? || op.pc.CloseRecord?) && Plan(s, id, op, ch).Some?
    ensures Entitled(s, op, Plan(s, id, op, ch).value)
  {
    hide Busy, IsOpen;
  }

  lemma EntryEntitled(s: State, id: nat, op: Op, ch: Choice)
    requires EntryPc(op.pc) && Registered(s) && Plan(s, id, op, ch).Some?
    ensures Entitled(s, op, Plan(s, id, op, ch).value)
  {
    hide Plan, Entitled, Registered;
    if op.pc.Entering? || op.pc.InThread? || op.pc.Replay? {
      EnteringEntitled(s, id, op, ch);
    } else if op.pc.Closing? || op.pc.Reading? {
      ClosingEntitled(s, id, op, ch);
    } else {
      RecordingEntitled(s, id, op, ch);
    }
  }

  predicate LookupPc(pc: Pc) {
    pc.Expiring? || pc.Looking? || pc.Visited?
  }

  lemma ExpiringEntitled(s: State, id: nat, op: Op, ch: Choice)
    requires op.pc.Expiring? && Registered(s) && Plan(s, id, op, ch).Some?
    ensures Entitled(s, op, Plan(s, id, op, ch).value)
  {
    hide Busy, IsOpen;
  }

  lemma LookingEntitled(s: State, id: nat, op: Op, ch: Choice)
    requires op.pc.Looking? && Registered(s) && Plan(s, id, op, ch).Some?
    ensures Entitled(s, op, Plan(s, id, op, ch).value)
  {
    hide Busy, IsOpen, PendingHandoff;
  }

  lemma VisitedEntitled(s: State, id: nat, op: Op, ch: Choice)
    requires op.pc.Visited? && Registered(s) && Plan(s, id, op, ch).Some?
    ensures Entitled(s, op, Plan(s, id, op, ch).value)
  {
    hide Busy, IsOpen;
  }

  lemma LookupEntitled(s: State, id: nat, op: Op, ch: Choice)
    requires LookupPc(op.pc) && Registered(s) && Plan(s, id, op, ch).Some?
    ensures Entitled(s, op, Plan(s, id, op, ch).value)
  {
    hide Plan, Entitled, Registered;
    if op.pc.Expiring? {
      ExpiringEntitled(s, id, op, ch);
    } else if op.pc.Looking? {
      LookingEntitled(s, id, op, ch);
    } else {
      VisitedEntitled(s, id, op, ch);
    }
  }

  predicate ProfilePc(pc: Pc) {
    pc.HaveProfile? || pc.Launching? || pc.Selecting? || pc.Removing?
  }

  lemma HaveProfileEntitled(s: State, id: nat, op: Op, ch: Choice)
    requires op.pc.HaveProfile? && ShapeOk(s, op) && Plan(s, id, op, ch).Some?
    ensures Entitled(s, op, Plan(s, id, op, ch).value)
  {
    hide Busy, IsOpen;
  }

  lemma LaunchingEntitled(s: State, id: nat, op: Op, ch: Choice)
    requires op.pc.Launching? && Plan(s, id, op, ch).Some?
    ensures Entitled(s, op, Plan(s, id, op, ch).value)
  {
    hide Busy, IsOpen;
  }

  lemma SelectingEntitled(s: State, id: nat, op: Op, ch: Choice)
    requires (op.pc.Selecting? || op.pc.Removing?) && Plan(s, id, op, ch).Some?
    ensures Entitled(s, op, Plan(s, id, op, ch).value)
  {
    hide Busy, IsOpen;
  }

  lemma ProfileEntitled(s: State, id: nat, op: Op, ch: Choice)
    requires ProfilePc(op.pc) && ShapeOk(s, op) && Plan(s, id, op, ch).Some?
    ensures Entitled(s, op, Plan(s, id, op, ch).value)
  {
    hide Plan, Entitled, ShapeOk;
    if op.pc.HaveProfile? {
      HaveProfileEntitled(s, id, op, ch);
    } else if op.pc.Launching? {
      LaunchingEntitled(s, id, op, ch);
    } else {
      SelectingEntitled(s, id, op, ch);
    }
  }

  predicate SessionPc(pc: Pc) {
    pc.HaveSession? || pc.Disposing? || pc.Unwatched?
  }

  lemma HaveEntitled(s: State, id: nat, op: Op, ch: Choice)
    requires op.pc.HaveSession? && ShapeOk(s, op) && Plan(s, id, op, ch).Some?
    ensures Entitled(s, op, Plan(s, id, op, ch).value)
  {
    hide Busy;
  }

  lemma DisposingEntitled(s: State, id: nat, op: Op, ch: Choice)
    requires (op.pc.Disposing? || op.pc.Unwatched?) && ShapeOk(s, op) && Plan(s, id, op, ch).Some?
    ensures Entitled(s, op, Plan(s, id, op, ch).value)
  {
    hide ShapeOk;
  }

  lemma ActingEntitled(s: State, id: nat, op: Op, ch: Choice)
    requires Acting(op.pc) && SessionMaps(s) && ShapeOk(s, op) && Plan(s, id, op, ch).Some?
    ensures Entitled(s, op, Plan(s, id, op, ch).value)
  {
    hide SessionMaps, Registered, OpenRegistered, ProfilesExclusive;
  }

  predicate HandPc(pc: Pc) {
    pc.Offering? || pc.Parked? || pc.Returning? || pc.HandRecord?
  }

  lemma ParkedEntitled(s: State, id: nat, op: Op, ch: Choice)
    requires (op.pc.Parked? || op.pc.Offering?) && Registered(s) && KnownSession(s, op) && Plan(s, id, op, ch).Some?
    ensures Entitled(s, op, Plan(s, id, op, ch).value)
  {
    hide Busy, IsOpen;
  }

  lemma ReturningEntitled(s: State, id: nat, op: Op, ch: Choice)
    requires (op.pc.Returning? || op.pc.HandRecord?) && Plan(s, id, op, ch).Some?
    ensures Entitled(s, op, Plan(s, id, op, ch).value)
  {
    hide Busy, IsOpen;
  }

  lemma HandEntitled(s: State, id: nat, op: Op, ch: Choice)
    requires HandPc(op.pc) && Registered(s) && ShapeOk(s, op) && Plan(s, id, op, ch).Some?
    ensures Entitled(s, op, Plan(s, id, op, ch).value)
  {
    hide Plan, Entitled, Registered, KnownSession, ActsOnOpen, LaunchesFree;
    if op.pc.Parked? || op.pc.Offering? {
      ParkedEntitled(s, id, op, ch);
    } else {
      ReturningEntitled(s, id, op, ch);
    }
  }

  lemma PlainShape(s: State, op: Op)
    requires Plain(op.pc)
    ensures ShapeOk(s, op)
  {
  }

  predicate OtherPc(pc: Pc) {
    !EntryPc(pc) && !LookupPc(pc) && !ProfilePc(pc) && !SessionPc(pc) && !Acting(pc) && !HandPc(pc)
  }

  lemma DeletePlan(s: State, id: nat, op: Op, ch: Choice)
    requires OtherPc(op.pc) && Plan(s, id, op, ch).Some?
    ensures Plan(s, id, op, ch) == PlanDelete(s, id, op, ch)
  {
    hide PlanDelete, Wants;
    WaitingPcs(op);
  }

  lemma WaitingPcs(op: Op)
    ensures Wants(op).None? ==> !op.pc.AtProfile? && !op.pc.AtSession?
  {
  }

  lemma DeletePlain(s: State, id: nat, op: Op, ch: Choice)
    requires PlanDelete(s, id, op, ch).Some?
    ensures var m := PlanDelete(s, id, op, ch).value;
            && (m.next.Some? ==> m.next.value.task == op.task && Plain(m.next.value.pc))
            && !BookEffect(m.effect)
                && (m.effect.SpawnAll? ==> m.next.Some? && ProperKids(s, id, op.task.thread, m.effect.kids))
  {
    hide ProperTargets, ProperKids, Gathered;
  }

  lemma DeleteEntitled(s: State, id: nat, op: Op, ch: Choice)
    requires OtherPc(op.pc) && Plan(s, id, op, ch).Some?
    ensures Entitled(s, op, Plan(s, id, op, ch).value)
  {
    hide Plan, PlanDelete, ShapeOk;
    DeletePlan(s, id, op, ch);
    DeletePlain(s, id, op, ch);
    var m := Plan(s, id, op, ch).value;
    if m.next.Some? {
      PlainShape(s, m.next.value);
    }
  }

  lemma MapsParts(s: State)
    requires SessionMaps(s)
    ensures Registered(s) && OpenRegistered(s) && ProfilesExclusive(s)
  {
    hide Registered, OpenRegistered, ProfilesExclusive;
  }

  /** Every segment is entitled to its effect. */
  lemma PlanEntitled(s: State, id: nat, op: Op, ch: Choice)
    requires SessionMaps(s) && ShapeOk(s, op) && Plan(s, id, op, ch).Some?
    ensures Entitled(s, op, Plan(s, id, op, ch).value)
  {
    hide Plan, Entitled, ShapeOk, SessionMaps;
    assert Registered(s) by { MapsParts(s); }
    if EntryPc(op.pc) {
      EntryEntitled(s, id, op, ch);
    } else if LookupPc(op.pc) {
      LookupEntitled(s, id, op, ch);
    } else if ProfilePc(op.pc) {
      ProfileEntitled(s, id, op, ch);
    } else if op.pc.HaveSession? {
      HaveEntitled(s, id, op, ch);
    } else if SessionPc(op.pc) {
      DisposingEntitled(s, id, op, ch);
    } else if Acting(op.pc) {
      ActingEntitled(s, id, op, ch);
    } else if HandPc(op.pc) {
      HandEntitled(s, id, op, ch);
    } else {
      DeleteEntitled(s, id, op, ch);
    }
  }

  /** So is every early end. */
  lemma AbortEntitled(s: State, op: Op, ch: Choice)
    requires ShapeOk(s, op)
    ensures Entitled(s, op, Abort(op, ch))
  {
  }

  // ---------------------------------------------------------------- effects on the session maps

  lemma InsertMaps(s: State, t: string, g: nat, p: Profile)
    requires SessionMaps(s) && g !in s.objs && t !in s.sessions && !Busy(s, p) && (p.Named? ==> p.id in s.profiles)
    ensures SessionMaps(ApplyEffect(s, Insert(t, g, p)))
  {
    var s' := ApplyEffect(s, Insert(t, g, p));
    forall u ensures KeyOf(s', u) == if u == t then Some(p) else KeyOf(s, u) {
    }
    assert forall u :: KeyOf(s, u) == Some(p) ==> u in s.sessions && Busy(s, p);
  }

  lemma TouchMaps(s: State, e: Effect)
    requires SessionMaps(s) && (e.MarkClosed? || e.SetHuman?)
    ensures SessionMaps(ApplyEffect(s, e))
  {
    var s' := ApplyEffect(s, e);
    forall u ensures KeyOf(s', u) == KeyOf(s, u) {
    }
  }

  lemma PopMaps(s: State, g: nat)
    requires SessionMaps(s) && g in s.objs && s.objs[g].closed
    ensures SessionMaps(ApplyEffect(s, Pop(g)))
  {
    var s' := ApplyEffect(s, Pop(g));
    forall u ensures KeyOf(s', u).Some? ==> KeyOf(s', u) == KeyOf(s, u) {
    }
  }

  lemma DropMaps(s: State, id: string)
    requires SessionMaps(s) && !Busy(s, Named(id))
    ensures SessionMaps(ApplyEffect(s, DropProfile(id)))
  {
    var s' := ApplyEffect(s, DropProfile(id));
    forall u ensures KeyOf(s', u) == KeyOf(s, u) && KeyOf(s, u) != Some(Named(id)) {
      assert KeyOf(s, u) == Some(Named(id)) ==> u in s.sessions && Busy(s, Named(id));
    }
  }

  /** What the sessions' invariants read of a state. */
  ghost predicate SameBook(s: State, s': State) {
    s'.sessions == s.sessions && s'.objs == s.objs && s'.profiles == s.profiles
  }

  lemma SameBookKeeps(s: State, s': State, op: Op)
    requires SameBook(s, s')
    ensures SessionMaps(s) ==> SessionMaps(s')
    ensures ShapeOk(s, op) ==> ShapeOk(s', op)
  {
    assert forall u :: KeyOf(s', u) == KeyOf(s, u);
    assert forall p :: Busy(s', p) == Busy(s, p);
  }

  lemma OtherEffects(s: State, e: Effect)
    requires !BookEffect(e)
    ensures SameBook(s, ApplyEffect(s, e))
  {
  }

  lemma MoveKeepsMaps(s: State, op: Op, m: Move)
    requires SessionMaps(s) && ShapeOk(s, op) && Entitled(s, op, m)
    ensures SessionMaps(ApplyEffect(s, m.effect))
  {
    hide SessionMaps, ApplyEffect;
    match m.effect
    case Insert(t, g, p) => InsertMaps(s, t, g, p);
    case MarkClosed(g) => TouchMaps(s, m.effect);
    case SetHuman(g, h) => TouchMaps(s, m.effect);
    case Pop(g) => PopMaps(s, g);
    case DropProfile(id) => DropMaps(s, id);
    case _ => OtherEffects(s, m.effect); SameBookKeeps(s, ApplyEffect(s, m.effect), op);
  }

  // ---------------------------------------------------------------- effects on other operations

  /** The two operations hold no common lock. */
  ghost predicate Apart(a: Op, b: Op) {
    forall k :: Holds(a, k) ==> !Holds(b, k)
  }

  lemma InsertShape(s: State, op: Op, t: string, g: nat, p: Profile, other: Op)
    requires ShapeOk(s, op) && ShapeOk(s, other) && op.pc == Launching(p) && ThreadOf(op.task) == Some(t)
        && g !in s.objs
    requires Apart(op, other)
    ensures ShapeOk(ApplyEffect(s, Insert(t, g, p)), other)
  {
    var s' := ApplyEffect(s, Insert(t, g, p));
    assert Holds(op, ThreadKey(t)) && Holds(op, ProfileKey(p));
    assert !Holds(other, ThreadKey(t)) && !Holds(other, ProfileKey(p));
    forall q | q != p && !Busy(s, q) ensures !Busy(s', q) {
      forall u | u in s'.sessions && s'.sessions[u] in s'.objs ensures s'.objs[s'.sessions[u]].profile != q {
        if u != t && s.sessions[u] in s.objs {
          assert s.objs[s.sessions[u]].profile != q;
        }
      }
    }
  }

  /** Touching a session keeps its thread, and marking it never reopens one. */
  lemma TouchKeepsIdentity(s: State, e: Effect)
    requires e.MarkClosed? || e.SetHuman?
    ensures var s' := ApplyEffect(s, e);
            s'.objs.Keys == s.objs.Keys && s'.sessions == s.sessions
            && (forall g :: g in s.objs ==>
                s'.objs[g].thread == s.objs[g].thread && (s.objs[g].closed ==> s'.objs[g].closed))
            && (e.MarkClosed? && e.gen in s.objs ==> s'.objs[e.gen].closed)
            && (forall g :: g in s.objs && g != e.gen ==> s'.objs[g] == s.objs[g])
            && (forall g :: g in s.objs ==> s'.objs[g].profile == s.objs[g].profile)
            && s'.profiles == s.profiles
  {
  }

  lemma TouchBusy(s: State, s': State, q: Profile)
    requires s'.sessions == s.sessions && s'.objs.Keys == s.objs.Keys
    requires forall g :: g in s.objs ==> s'.objs[g].profile == s.objs[g].profile
    ensures Busy(s', q) == Busy(s, q)
  {
    if Busy(s', q) {
      var u :| u in s'.sessions && s'.sessions[u] in s'.objs && s'.objs[s'.sessions[u]].profile == q;
      assert s.objs[s.sessions[u]].profile == q;
    }
    if Busy(s, q) {
      var u :| u in s.sessions && s.sessions[u] in s.objs && s.objs[s.sessions[u]].profile == q;
      assert s'.objs[s'.sessions[u]].profile == q;
    }
  }

  lemma TouchShape(s: State, op: Op, g: nat, e: Effect, other: Op)
    requires ShapeOk(s, other) && SessionHeld(op.pc) == Some(g) && (e == MarkClosed(g) || (e.SetHuman? && e.gen == g))
    requires Apart(op, other)
    ensures ShapeOk(ApplyEffect(s, e), other)
  {
    hide ApplyEffect, Busy;
    var s' := ApplyEffect(s, e);
    TouchKeepsIdentity(s, e);
    forall q ensures Busy(s', q) == Busy(s, q) {
      TouchBusy(s, s', q);
    }
    assert Holds(op, SessionKey(g)) && !Holds(other, SessionKey(g));
  }

  lemma PopShape(s: State, g: nat, other: Op)
    requires ShapeOk(s, other)
    ensures ShapeOk(ApplyEffect(s, Pop(g)), other)
  {
    var s' := ApplyEffect(s, Pop(g));
    forall q | !Busy(s, q) ensures !Busy(s', q) {
      forall u | u in s'.sessions && s'.sessions[u] in s'.objs ensures s'.objs[s'.sessions[u]].profile != q {
        assert s.objs[s.sessions[u]].profile != q;
      }
    }
  }

  lemma DropShape(s: State, op: Op, id: string, other: Op)
    requires ShapeOk(s, other) && op.pc.Removing? && op.task == DeleteProfile(id)
    requires Apart(op, other)
    ensures ShapeOk(ApplyEffect(s, DropProfile(id)), other)
  {
    var s' := ApplyEffect(s, DropProfile(id));
    assert Holds(op, ProfileKey(Named(id))) && !Holds(other, ProfileKey(Named(id)));
    assert forall q :: Busy(s', q) == Busy(s, q);
  }

  /** What an operation has established stays true through another's effects: they change only what
      their own locks protect. */
  lemma MoveKeepsShape(s: State, op: Op, m: Move, other: Op)
    requires ShapeOk(s, op) && ShapeOk(s, other) && Entitled(s, op, m) && Apart(op, other)
    ensures ShapeOk(ApplyEffect(s, m.effect), other)
  {
    hide ApplyEffect, Apart;
    match m.effect
    case Insert(t, g, p) => InsertShape(s, op, t, g, p, other);
    case MarkClosed(g) => TouchShape(s, op, g, m.effect, other);
    case SetHuman(g, h) => TouchShape(s, op, g, m.effect, other);
    case Pop(g) => PopShape(s, g, other);
    case DropProfile(id) => DropShape(s, op, id, other);
    case _ => OtherEffects(s, m.effect); SameBookKeeps(s, ApplyEffect(s, m.effect), other);
  }

  lemma InsertOwn(s: State, op: Op, m: Move, t: string, g: nat, p: Profile)
    requires Entitled(s, op, m) && m.effect == Insert(t, g, p) && m.next.Some? && m.next.value.task == op.task
    ensures KnownSession(ApplyEffect(s, Insert(t, g, p)), m.next.value)
  {
    hide Busy, ShapeOk;
  }

  lemma TouchOwn(s: State, op: Op, m: Move)
    requires KnownSession(s, op) && Entitled(s, op, m) && (m.effect.MarkClosed? || m.effect.SetHuman?)
    requires m.next.Some? && m.next.value.task == op.task
    ensures KnownSession(ApplyEffect(s, m.effect), m.next.value)
  {
    hide ApplyEffect, Busy, ShapeOk;
    TouchKeepsIdentity(s, m.effect);
  }

  lemma BookOwnShape(s: State, op: Op, m: Move)
    requires KnownSession(s, op) && Entitled(s, op, m) && BookEffect(m.effect) && m.next.Some?
        && m.next.value.task == op.task
    ensures KnownSession(ApplyEffect(s, m.effect), m.next.value)
  {
    hide ApplyEffect, ShapeOk;
    match m.effect
    case Insert(t, g, p) => InsertOwn(s, op, m, t, g, p);
    case MarkClosed(_) => TouchOwn(s, op, m);
    case SetHuman(_, _) => TouchOwn(s, op, m);
    case _ =>
  }

  lemma BookLeavesPlain(s: State, op: Op, m: Move)
    requires Entitled(s, op, m) && BookEffect(m.effect) && m.next.Some?
    ensures !Acting(m.next.value.pc) && !m.next.value.pc.AtProfile? && !m.next.value.pc.HaveProfile?
    ensures !m.next.value.pc.Launching? && !m.next.value.pc.Removing?
  {
    hide ShapeOk;
  }

  /** The moving operation itself, at its next program counter. */
  lemma MoveOwnShape(s: State, op: Op, m: Move)
    requires ShapeOk(s, op) && Entitled(s, op, m) && m.next.Some?
    requires m.next.value.task == op.task || (m.next.value.pc.Unwatched? && m.effect.Nothing?)
    ensures ShapeOk(ApplyEffect(s, m.effect), m.next.value)
  {
    hide ApplyEffect, KnownSession;
    if BookEffect(m.effect) {
      BookOwnShape(s, op, m);
      BookLeavesPlain(s, op, m);
    } else if m.effect.SpawnAll? {
      PlainShape(ApplyEffect(s, m.effect), m.next.value);
    } else {
      OtherEffects(s, m.effect);
      SameBookKeeps(s, ApplyEffect(s, m.effect), m.next.value);
    }
  }

  // ---------------------------------------------------------------- steps

  lemma InsertIgnoresOps(s: State, s1: State, t: string, g: nat, p: Profile)
    requires s1 == s.(ops := s1.ops)
    ensures SameBook(ApplyEffect(s, Insert(t, g, p)), ApplyEffect(s1, Insert(t, g, p)))
  {
  }

  lemma CloseIgnoresOps(s: State, s1: State, g: nat)
    requires s1 == s.(ops := s1.ops)
    ensures SameBook(ApplyEffect(s, MarkClosed(g)), ApplyEffect(s1, MarkClosed(g)))
  {
  }

  lemma HumanIgnoresOps(s: State, s1: State, g: nat, h: bool)
    requires s1 == s.(ops := s1.ops)
    ensures SameBook(ApplyEffect(s, SetHuman(g, h)), ApplyEffect(s1, SetHuman(g, h)))
  {
  }

  lemma PopIgnoresOps(s: State, s1: State, g: nat, id: string)
    requires s1 == s.(ops := s1.ops)
    ensures SameBook(ApplyEffect(s, Pop(g)), ApplyEffect(s1, Pop(g)))
    ensures SameBook(ApplyEffect(s, DropProfile(id)), ApplyEffect(s1, DropProfile(id)))
  {
  }

  /** Effects read and write the session maps alike whatever the operations are. */
  lemma EffectIgnoresOps(s: State, s1: State, e: Effect)
    requires s1 == s.(ops := s1.ops)
    ensures SameBook(ApplyEffect(s, e), ApplyEffect(s1, e))
  {
    hide ApplyEffect;
    match e
    case Insert(t, g, p) => InsertIgnoresOps(s, s1, t, g, p);
    case MarkClosed(g) => CloseIgnoresOps(s, s1, g);
    case SetHuman(g, h) => HumanIgnoresOps(s, s1, g, h);
    case Pop(g) => PopIgnoresOps(s, s1, g, "");
    case DropProfile(id) => PopIgnoresOps(s, s1, 0, id);
    case _ =>
      OtherEffects(s, e);
      OtherEffects(s1, e);
  }

  lemma CloserShape(s: State, op: Op)
    requires op.task.CloseOne? && op.pc == AtSession(op.task.gen, ToClose) && op.task.gen in s.objs
    ensures ShapeOk(s, op)
  {
    hide Busy, IsOpen;
  }

  lemma KidShape(s: State, op: Op, m: Move, k: nat)
    requires Entitled(s, op, m) && m.effect.SpawnAll? && k in m.effect.kids
    ensures ShapeOk(ApplyEffect(s, m.effect), m.effect.kids[k])
  {
    hide ShapeOk, ApplyEffect;
    OtherEffects(s, m.effect);
    CloserShape(ApplyEffect(s, m.effect), m.effect.kids[k]);
  }

  lemma FailedShape(s: State, op: Op)
    requires op.pc.Gathering?
    ensures ShapeOk(s, op.(pc := GatherFailed(op.pc.targets)))
  {
  }

  lemma PerformKeepsSessions(s: State, id: nat, m: Move)
    requires SessionsOk(s) && Mutex(s) && id in s.ops && Entitled(s, s.ops[id], m)
    requires m.next.Some? ==> m.next.value.task == s.ops[id].task || (m.next.value.pc.Unwatched? && m.effect.Nothing?)
    ensures SessionsOk(Perform(s, id, m))
  {
    hide ApplyEffect, Entitled, ShapeOk, SessionMaps, Holds;
    var op := s.ops[id];
    var s1 := s.(ops := match m.next case None => s.ops - {id} case Some(next) => s.ops[id := next]);
    var s0, s' := ApplyEffect(s, m.effect), Perform(s, id, m);
    EffectIgnoresOps(s, s1, m.effect);
    EffectOps(s1, m.effect);
    MoveKeepsMaps(s, op, m);
    SameBookKeeps(s0, s', op);
    forall o | o in s'.ops ensures ShapeOk(s', s'.ops[o]) {
      SameBookKeeps(s0, s', s'.ops[o]);
      if o in s1.ops && s'.ops[o] == s1.ops[o] {
        if o == id {
          MoveOwnShape(s, op, m);
        } else {
          MoveKeepsShape(s, op, m, s.ops[o]);
        }
      } else if m.effect.SpawnAll? {
        KidShape(s, op, m, o);
      } else {
        FailedShape(s', s1.ops[o]);
      }
    }
  }

  lemma InitialShape(s: State, task: Task)
    requires !task.CloseOne? && !task.Finishing?
    ensures ShapeOk(s, Initial(task))
  {
  }

  lemma GrantedShape(s: State, op: Op)
    requires Wants(op).Some? && ShapeOk(s, op) && WellFormed(op)
    ensures ShapeOk(s, Granted(op))
  {
  }

  lemma AbortTask(op: Op, ch: Choice)
    ensures Abort(op, ch).next.Some? ==> Abort(op, ch).next.value.pc.Unwatched? && Abort(op, ch).effect.Nothing?
  {
  }

  lemma StepKeepsSessions(s: State, s': State, id: nat, ch: Choice)
    requires SessionsOk(s) && Mutex(s) && (Work(s, s', id, ch) || Aborts(s, s', id, ch))
    ensures SessionsOk(s')
  {
    hide Plan, Perform, Abort, Entitled, ShapeOk, SessionMaps, Holds;
    var op := s.ops[id];
    if Work(s, s', id, ch) {
      PlanEntitled(s, id, op, ch);
      if Plan(s, id, op, ch).value.next.Some? {
        PlanTask(s, id, op, ch);
      }
      PerformKeepsSessions(s, id, Plan(s, id, op, ch).value);
    } else {
      AbortEntitled(s, op, ch);
      AbortTask(op, ch);
      PerformKeepsSessions(s, id, Abort(op, ch));
    }
  }

  lemma OutsideKeepsSessions(s: State, s': State, id: string, token: nat)
    requires SessionsOk(s) && Outside(s, s', id, token)
    ensures SessionsOk(s')
  {
    hide SessionMaps, ShapeOk;
    if s' == s.(profiles := s.profiles + {id}) {
      MoreProfiles(s, s');
    } else {
      forall o | o in s.ops ensures ShapeOk(s', s'.ops[o]) {
        SameBookKeeps(s, s', s.ops[o]);
      }
      SameBookKeeps(s, s', Op(Close(""), AtThread));
    }
  }

  lemma MoreProfiles(s: State, s': State)
    requires SessionsOk(s) && s' == s.(profiles := s'.profiles) && s.profiles <= s'.profiles
    ensures SessionsOk(s')
  {
    assert forall u :: KeyOf(s', u) == KeyOf(s, u);
    assert forall p :: Busy(s', p) == Busy(s, p);
  }

  lemma NextKeepsSessions(s: State, s': State)
    requires SessionsOk(s) && LocksOk(s) && Next(s, s')
    ensures SessionsOk(s')
  {
    hide Work, Aborts, Outside, Wants, Granted, Initial, ShapeOk, SessionMaps, WellFormed, Holds;
    if id, task :| Spawn(s, s', id, task) {
      SpawnKeepsSessions(s, s', id, task);
    } else if id :| Grant(s, s', id) {
      GrantKeepsSessions(s, s', id);
    } else if id, ch :| Work(s, s', id, ch) {
      StepKeepsSessions(s, s', id, ch);
    } else if id, ch :| Aborts(s, s', id, ch) {
      StepKeepsSessions(s, s', id, ch);
    } else if id, token :| Outside(s, s', id, token) {
      OutsideKeepsSessions(s, s', id, token);
    } else {
      EmptyBook(s');
    }
  }

  lemma EmptyBook(s: State)
    requires s.sessions == map[] && s.objs == map[] && s.ops == map[]
    ensures SessionsOk(s)
  {
  }

  lemma SpawnKeepsSessions(s: State, s': State, id: nat, task: Task)
    requires SessionsOk(s) && Spawn(s, s', id, task)
    ensures SessionsOk(s')
  {
    hide ShapeOk, SessionMaps, Initial;
    InitialShape(s, task);
    forall o | o in s'.ops ensures ShapeOk(s', s'.ops[o]) {
      SameBookKeeps(s, s', s'.ops[o]);
    }
    SameBookKeeps(s, s', Initial(task));
  }

  lemma GrantKeepsSessions(s: State, s': State, id: nat)
    requires SessionsOk(s) && AllWellFormed(s) && Grant(s, s', id)
    ensures SessionsOk(s')
  {
    hide ShapeOk, SessionMaps, Wants, Granted, WellFormed, Holds;
    GrantedShape(s, s.ops[id]);
    forall o | o in s'.ops ensures ShapeOk(s', s'.ops[o]) {
      SameBookKeeps(s, s', s'.ops[o]);
    }
    SameBookKeeps(s, s', s.ops[id]);
  }

  // ---------------------------------------------------------------- every reachable state

  lemma {:induction false} RunSessionsOk(run: seq<State>, i: nat)
    requires Run(run) && i < |run|
    ensures SessionsOk(run[i]) && LocksOk(run[i])
  {
    hide Next;
    RunLocksOk(run, i);
    if i == 0 {
      EmptyBook(run[0]);
    } else {
      RunSessionsOk(run, i - 1);
      NextKeepsSessions(run[i - 1], run[i]);
    }
  }

  /** In every reachable state a profile is open in one conversation at most, and a named profile in use
      has not been deleted. */
  lemma ProfileExclusive(run: seq<State>, i: nat, t: string, u: string)
    requires Run(run) && i < |run|
    requires KeyOf(run[i], t).Some? && KeyOf(run[i], t) == KeyOf(run[i], u)
    ensures t == u
    ensures KeyOf(run[i], t).value.Named? ==> KeyOf(run[i], t).value.id in run[i].profiles
  {
    hide Run;
    RunSessionsOk(run, i);
  }

  /** A launch registers its session where none is, although other segments run between its check and
      the registration. */
  lemma LaunchOverwritesNothing(run: seq<State>, i: nat, id: nat, ch: Choice)
    requires Run(run) && i < |run| && id in run[i].ops
    requires Plan(run[i], id, run[i].ops[id], ch).Some? && Plan(run[i], id, run[i].ops[id], ch).value.effect.Insert?
    ensures var e := Plan(run[i], id, run[i].ops[id], ch).value.effect;
            e.thread !in run[i].sessions && !Busy(run[i], e.profile)
                && (e.profile.Named? ==> e.profile.id in run[i].profiles)
  {
    hide Run, Plan, SessionMaps;
    RunSessionsOk(run, i);
    PlanEntitled(run[i], id, run[i].ops[id], ch);
  }

  /** A named profile is deleted only while no session and no launch uses it. */
  lemma DeletedProfileUnused(run: seq<State>, i: nat, id: nat, ch: Choice)
    requires Run(run) && i < |run| && id in run[i].ops
    requires Plan(run[i], id, run[i].ops[id], ch).Some?
        && Plan(run[i], id, run[i].ops[id], ch).value.effect.DropProfile?
    ensures var p := Named(Plan(run[i], id, run[i].ops[id], ch).value.effect.id);
            !Busy(run[i], p) && forall o :: o in run[i].ops ==> run[i].ops[o].pc != Launching(p)
  {
    hide Run, Plan, SessionMaps, Holds;
    RunSessionsOk(run, i);
    PlanEntitled(run[i], id, run[i].ops[id], ch);
    var p := Named(Plan(run[i], id, run[i].ops[id], ch).value.effect.id);
    forall o | o in run[i].ops ensures run[i].ops[o].pc != Launching(p) {
      if run[i].ops[o].pc == Launching(p) {
        BothHoldProfile(run[i].ops[id], run[i].ops[o], p);
      }
    }
  }

  lemma BothHoldProfile(op: Op, launch: Op, p: Profile)
    requires op.pc.Removing? && op.task.DeleteProfile? && p == Named(op.task.id) && launch.pc == Launching(p)
    ensures Holds(op, ProfileKey(p)) && Holds(launch, ProfileKey(p))
  {
  }

  /** An agent's action only ever runs on its own thread's registered session, open and not in a human's
      hands. */
  lemma ActionsOnOwnOpenSession(run: seq<State>, i: nat, id: nat)
    requires Run(run) && i < |run| && id in run[i].ops && Acting(run[i].ops[id].pc)
        && ThreadOf(run[i].ops[id].task).Some?
    ensures var s, t, g := run[i], ThreadOf(run[i].ops[id].task).value, run[i].ops[id].pc.gen;
            t in s.sessions && s.sessions[t] == g && g in s.objs && !s.objs[g].closed && !s.objs[g].human
  {
    hide Run;
    RunSessionsOk(run, i);
  }
}
