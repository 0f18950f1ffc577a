/** The durable journal: over every run, with crashes, timeouts and replays, a call's action starts at
    most once, with the arguments recorded first, and every completed replay returns the one recorded
    result. */
module BrowserJournal {
  import opened Prelude
  import opened BrowserModel
  import opened BrowserLocks
  import opened BrowserDeletion

  // ---------------------------------------------------------------- invariants

  /** Each life of a call starts at most once; what has started in the current life is in the journal as
      running or completed. */
  ghost predicate StartsRecorded(s: State) {
    && (forall life :: s.started[life] <= 1)
    && (forall life :: life in s.started ==> life.era <= Era(s.deletions, life.call.thread))
    && (forall life :: life in s.started && life == LifeOf(s, life.call) ==>
          life.call in s.journal && (s.journal[life.call].status.Running? || s.journal[life.call].status.Completed?))
  }

  /** Each life of a call has at most one answer; one given in the current life is the recorded result. */
  ghost predicate AnswersRecorded(s: State) {
    && (forall x, y :: x in s.answers && y in s.answers && x.0 == y.0 ==> x == y)
    && (forall x :: x in s.answers ==> x.0.era <= Era(s.deletions, x.0.call.thread))
    && (forall x :: x in s.answers && x.0 == LifeOf(s, x.0.call) ==>
          x.0.call in s.journal && s.journal[x.0.call].status == Completed(x.1))
  }

  /** The operation has found no row for its call. */
  predicate FreshPc(op: Op) {
    Journaled(op.task) && match op.pc
      case Recording => op.task.Execute?
      case Arming(_) => op.task.Execute?
      case Offering(_) => op.task.Handoff?
      case Expiring(stage) => stage.Ensuring?
      case Looking(_) => true
      case AtProfile(_) => true
      case HaveProfile(_) => true
      case Launching(_) => true
      case AtSession(_, why) => FreshWhy(why)
      case HaveSession(_, why) => FreshWhy(why)
      case Disposing(_, why) => FreshWhy(why)
      case _ => false
  }

  predicate FreshWhy(why: Why) {
    why.ToUse? || (why.ToExpire? && why.stage.Ensuring?)
  }

  /** The action has recorded that it runs, and neither its result nor its failure. */
  predicate RunningPc(op: Op) {
    op.task.Execute? && Journaled(op.task) && match op.pc
      case Ready(_) => true
      case Driving(_) => true
      case Driven(_, _) => true
      case Closing => true
      case CloseRecord => true
      case AtSession(_, why) => why.ToClose?
      case HaveSession(_, why) => why.ToClose?
      case Disposing(_, why) => why.ToClose?
      case _ => false
  }

  /** The handoff has a row that waits for the user. */
  predicate HandedPc(op: Op) {
    op.task.Handoff? && match op.pc
      case Parked(_) => true
      case Returning(_, _) => true
      case HandRecord(_) => true
      case AtSession(_, why) => why.ToReturn?
      case HaveSession(_, why) => why.ToReturn?
      case Disposing(_, why) => why.ToReturn?
      case _ => false
  }

  predicate RowIs(s: State, c: Call, fp: string, running: bool) {
    c in s.journal && s.journal[c].fp == fp
        && (if running then s.journal[c].status.Running? else s.journal[c].status.HandedOff?)
  }

  /** Observations neither record nor close. */
  predicate ObservesOnly(op: Op) {
    op.task.Execute? && op.task.kind.Observe? ==>
      !op.pc.Recording? && !op.pc.Arming? && !op.pc.Closing? && !op.pc.CloseRecord? && !ClosesSession(op.pc)
  }

  /** What an operation knows of its call's row. */
  ghost predicate KnowsRow(s: State, op: Op) {
    && ObservesOnly(op)
    && (FreshPc(op) ==> CallOf(op.task) !in s.journal)
    && (RunningPc(op) ==> RowIs(s, CallOf(op.task), op.task.fp, true))
    && (HandedPc(op) ==> RowIs(s, CallOf(op.task), op.task.fp, false))
    && (RunningPc(op) && op.pc.Ready? && op.task.kind.RunTool? ==> s.started[LifeOf(s, CallOf(op.task))] == 0)
  }

  ghost predicate JournalOk(s: State) {
    StartsRecorded(s) && AnswersRecorded(s) && forall o :: o in s.ops ==> KnowsRow(s, s.ops[o])
  }

  // ---------------------------------------------------------------- what each move does to the journal

  predicate JournalEffect(e: Effect) {
    e.WriteRow? || e.Complete? || e.ExpireRows? || e.Start? || e.Commit? || e.Answer?
  }

  /** A move writes a row only for a call without one, completes only an unfinished one, starts only what
      it has just recorded, and answers only what is recorded. */
  ghost predicate Faithful(s: State, op: Op, m: Move) {
    match m.effect
    case WriteRow(c, row) =>
      && FreshPc(op) && c == CallOf(op.task) && row.fp == op.task.fp && m.next.Some? && m.next.value.task == op.task
      && !FreshPc(m.next.value) && ObservesOnly(m.next.value)
      && (if op.task.Execute? then row.status.Running? else row.status.HandedOff?)
    case Complete(c, row) =>
      (RunningPc(op) || HandedPc(op)) && c == CallOf(op.task) && row.fp == op.task.fp && row.status.Completed?
          && m.next.None?
    case Answer(c, r) => Journaled(op.task) && c == CallOf(op.task) && c in s.journal
        && s.journal[c] == Row(op.task.fp, Completed(r)) && m.next.None?
    case Start(c) =>
      && RunningPc(op) && op.pc.Ready? && op.task.kind.RunTool? && c == CallOf(op.task)
      && m.next.Some? && m.next.value.task == op.task && m.next.value.pc.Driving?
    case ExpireRows(t, _) =>
      && m.next.Some? && m.next.value.task == op.task && ThreadOf(op.task) == Some(t) && ObservesOnly(m.next.value)
      && !RunningPc(m.next.value) && !HandedPc(m.next.value) && (FreshPc(m.next.value) ==> FreshPc(op))
    case Commit(_) => op.task.DeleteThread? && (m.next.Some? ==> m.next.value.task == op.task)
    case _ => m.next.Some? ==> KnowsRow(s, m.next.value)
  }

  predicate StartPc(pc: Pc) {
    pc.Entering? || pc.InThread? || pc.Replay? || pc.Reading?
  }

  lemma StartFaithful(s: State, id: nat, op: Op, ch: Choice)
    requires StartPc(op.pc) && WellFormed(op) && Plan(s, id, op, ch).Some?
    ensures Faithful(s, op, Plan(s, id, op, ch).value)
  {
    hide Matches, Increasing, Era;
  }

  predicate RowPc(pc: Pc) {
    pc.Recording? || pc.CloseRecord? || pc.Arming? || pc.Offering? || pc.HandRecord? || pc.Driven?
  }

  lemma RowFaithful(s: State, id: nat, op: Op, ch: Choice)
    requires RowPc(op.pc) && WellFormed(op) && KnowsRow(s, op) && Plan(s, id, op, ch).Some?
    ensures Faithful(s, op, Plan(s, id, op, ch).value)
  {
    hide Matches, Increasing, Era;
  }

  predicate LookPc(pc: Pc) {
    pc.Expiring? || pc.Looking? || pc.AtProfile? || pc.HaveProfile? || pc.Launching?
  }

  lemma LookFaithful(s: State, id: nat, op: Op, ch: Choice)
    requires LookPc(op.pc) && WellFormed(op) && KnowsRow(s, op) && Plan(s, id, op, ch).Some?
    ensures Faithful(s, op, Plan(s, id, op, ch).value)
  {
    hide Matches, Increasing, Era, Busy, PendingHandoff;
  }

  predicate HoldPc(pc: Pc) {
    pc.AtSession? || pc.HaveSession? || pc.Disposing? || pc.Closing?
  }

  lemma HaveFaithful(s: State, id: nat, op: Op, ch: Choice)
    requires op.pc.HaveSession? && KnowsRow(s, op) && Plan(s, id, op, ch).Some?
    ensures Faithful(s, op, Plan(s, id, op, ch).value)
  {
    hide Matches, Increasing, Era, Busy, PendingHandoff, IsOpen;
  }

  lemma DisposingFaithful(s: State, id: nat, op: Op, ch: Choice)
    requires op.pc.Disposing? && KnowsRow(s, op) && Plan(s, id, op, ch).Some?
    ensures Faithful(s, op, Plan(s, id, op, ch).value)
  {
    hide Matches, Increasing, Era, Busy, PendingHandoff, IsOpen;
  }

  lemma ClosingFaithful(s: State, id: nat, op: Op, ch: Choice)
    requires (op.pc.Closing? || op.pc.AtSession?) && KnowsRow(s, op) && Plan(s, id, op, ch).Some?
    ensures Faithful(s, op, Plan(s, id, op, ch).value)
  {
    hide Matches, Increasing, Era, Busy, PendingHandoff, IsOpen;
  }

  lemma HoldFaithful(s: State, id: nat, op: Op, ch: Choice)
    requires HoldPc(op.pc) && KnowsRow(s, op) && Plan(s, id, op, ch).Some?
    ensures Faithful(s, op, Plan(s, id, op, ch).value)
  {
    hide Plan, Faithful, KnowsRow;
    if op.pc.HaveSession? {
      HaveFaithful(s, id, op, ch);
    } else if op.pc.Disposing? {
      DisposingFaithful(s, id, op, ch);
    } else {
      ClosingFaithful(s, id, op, ch);
    }
  }

  predicate DrivePc(pc: Pc) {
    pc.Ready? || pc.Driving? || pc.Parked? || pc.Returning?
  }

  lemma RunFaithful(s: State, id: nat, op: Op, ch: Choice)
    requires (op.pc.Ready? || op.pc.Driving?) && KnowsRow(s, op) && Plan(s, id, op, ch).Some?
    ensures Faithful(s, op, Plan(s, id, op, ch).value)
  {
    hide Matches, Era, Busy, PendingHandoff, IsOpen;
  }

  lemma ReturnFaithful(s: State, id: nat, op: Op, ch: Choice)
    requires (op.pc.Parked? || op.pc.Returning?) && KnowsRow(s, op) && Plan(s, id, op, ch).Some?
    ensures Faithful(s, op, Plan(s, id, op, ch).value)
  {
    hide Matches, Era, Busy, PendingHandoff, IsOpen;
  }

  lemma DriveFaithful(s: State, id: nat, op: Op, ch: Choice)
    requires DrivePc(op.pc) && KnowsRow(s, op) && Plan(s, id, op, ch).Some?
    ensures Faithful(s, op, Plan(s, id, op, ch).value)
  {
    hide Plan, Faithful, KnowsRow;
    if op.pc.Ready? || op.pc.Driving? {
      RunFaithful(s, id, op, ch);
    } else {
      ReturnFaithful(s, id, op, ch);
    }
  }

  predicate ElsePc(pc: Pc) {
    !StartPc(pc) && !RowPc(pc) && !LookPc(pc) && !HoldPc(pc) && !DrivePc(pc)
  }

  lemma ElseFaithful(s: State, id: nat, op: Op, ch: Choice)
    requires ElsePc(op.pc) && WellFormed(op) && Plan(s, id, op, ch).Some?
    ensures Faithful(s, op, Plan(s, id, op, ch).value)
  {
    hide Matches, Increasing, Era, Busy, PendingHandoff, ProperKids, ProperTargets, Gathered;
  }

  lemma PlanFaithful(s: State, id: nat, op: Op, ch: Choice)
    requires WellFormed(op) && KnowsRow(s, op) && Plan(s, id, op, ch).Some?
    ensures Faithful(s, op, Plan(s, id, op, ch).value)
  {
    hide Plan, Faithful, KnowsRow, WellFormed;
    if StartPc(op.pc) {
      StartFaithful(s, id, op, ch);
    } else if RowPc(op.pc) {
      RowFaithful(s, id, op, ch);
    } else if LookPc(op.pc) {
      LookFaithful(s, id, op, ch);
    } else if HoldPc(op.pc) {
      HoldFaithful(s, id, op, ch);
    } else if DrivePc(op.pc) {
      DriveFaithful(s, id, op, ch);
    } else {
      ElseFaithful(s, id, op, ch);
    }
  }

  lemma AbortFaithful(s: State, op: Op, ch: Choice)
    ensures Faithful(s, op, Abort(op, ch))
  {
  }

  // ---------------------------------------------------------------- effects

  /** What the journal's invariants read of a state. */
  ghost predicate SameLog(s: State, s': State) {
    s'.journal == s.journal && s'.started == s.started && s'.answers == s.answers && s'.deletions == s.deletions
  }

  ghost predicate LogOk(s: State) {
    StartsRecorded(s) && AnswersRecorded(s)
  }

  lemma SameLogKeeps(s: State, s': State, op: Op)
    requires SameLog(s, s')
    ensures LogOk(s) ==> LogOk(s')
    ensures KnowsRow(s, op) ==> KnowsRow(s', op)
  {
    assert forall c :: LifeOf(s', c) == LifeOf(s, c);
  }

  lemma NoLogEffect(s: State, e: Effect)
    requires !JournalEffect(e)
    ensures SameLog(s, ApplyEffect(s, e))
  {
    hide Expired, Recorded, Kept, LifeOf, Matches;
  }

  lemma WriteLog(s: State, c: Call, row: Row)
    requires LogOk(s) && c !in s.journal
    ensures LogOk(ApplyEffect(s, WriteRow(c, row)))
  {
    var s' := ApplyEffect(s, WriteRow(c, row));
    assert forall x :: LifeOf(s', x) == LifeOf(s, x);
  }

  /** One more answer, for a call that has none in its current life or the same. */
  lemma AnswerAdded(s: State, s': State, c: Call, r: string)
    requires AnswersRecorded(s) && s'.deletions == s.deletions && s'.answers == s.answers + {(LifeOf(s, c), r)}
    requires c in s'.journal && s'.journal[c].status == Completed(r)
    requires c in s.journal && (s.journal[c].status.Completed? ==> s.journal[c].status.result == r)
    requires forall d :: d in s.journal && d != c ==> d in s'.journal && s'.journal[d] == s.journal[d]
    ensures AnswersRecorded(s')
  {
    hide Era;
    assert forall x :: LifeOf(s', x) == LifeOf(s, x);
    var added := (LifeOf(s, c), r);
    forall x, y | x in s'.answers && y in s'.answers && x.0 == y.0 ensures x == y {
    }
  }

  lemma StartsStay(s: State, s': State, c: Call, row: Row)
    requires StartsRecorded(s) && s'.deletions == s.deletions && s'.started == s.started
    requires s'.journal == Recorded(s.journal, c, row) && !row.status.HandedOff?
    ensures StartsRecorded(s')
  {
    hide Era;
    assert forall x :: LifeOf(s', x) == LifeOf(s, x);
  }

  lemma CompleteLog(s: State, c: Call, row: Row)
    requires LogOk(s) && c in s.journal && !s.journal[c].status.Completed? && row.status.Completed?
    ensures LogOk(ApplyEffect(s, Complete(c, row)))
  {
    hide LifeOf, StartsRecorded, AnswersRecorded;
    var s' := ApplyEffect(s, Complete(c, row));
    AnswerAdded(s, s', c, row.status.result);
    StartsStay(s, s', c, row);
  }

  lemma AnswerLog(s: State, c: Call, r: string)
    requires LogOk(s) && c in s.journal && s.journal[c].status == Completed(r)
    ensures LogOk(ApplyEffect(s, Answer(c, r)))
  {
    hide LifeOf, StartsRecorded, AnswersRecorded;
    var s' := ApplyEffect(s, Answer(c, r));
    AnswerAdded(s, s', c, r);
    StartsStay(s, s', c, s.journal[c]);
  }

  lemma ExpireLog(s: State, t: string, calls: set<string>)
    requires LogOk(s)
    ensures LogOk(ApplyEffect(s, ExpireRows(t, calls)))
  {
    var s' := ApplyEffect(s, ExpireRows(t, calls));
    assert forall x :: LifeOf(s', x) == LifeOf(s, x);
  }

  lemma StartLog(s: State, c: Call)
    requires LogOk(s) && c in s.journal && s.journal[c].status.Running? && s.started[LifeOf(s, c)] == 0
    ensures LogOk(ApplyEffect(s, Start(c)))
  {
    var s' := ApplyEffect(s, Start(c));
    assert forall x :: LifeOf(s', x) == LifeOf(s, x);
  }

  lemma EraStep(deletions: seq<string>, t: string, x: string)
    ensures Era([t] + deletions, x) == Era(deletions, x) + if Matches(x, t) then 1 else 0
  {
    hide Matches;
    assert ([t] + deletions)[1..] == deletions;
  }

  /** What a commit of deletion `t` makes of a call: its row goes, and its next life starts. */
  ghost predicate Forgotten(s: State, s': State, t: string, c: Call) {
    && Era(s'.deletions, c.thread) == Era(s.deletions, c.thread) + (if Matches(c.thread, t) then 1 else 0)
    && (c in s'.journal <==> c in s.journal && !Matches(c.thread, t))
    && (c in s'.journal ==> s'.journal[c] == s.journal[c])
  }

  lemma CommitForgets(s: State, t: string)
    ensures forall c :: Forgotten(s, ApplyEffect(s, Commit(t)), t, c)
    ensures ApplyEffect(s, Commit(t)).started == s.started && ApplyEffect(s, Commit(t)).answers == s.answers
  {
    hide Era, Matches;
    forall c: Call ensures Forgotten(s, ApplyEffect(s, Commit(t)), t, c) {
      EraStep(s.deletions, t, c.thread);
    }
  }

  lemma ForgetStarts(s: State, s': State, t: string)
    requires StartsRecorded(s) && s'.started == s.started && forall c :: Forgotten(s, s', t, c)
    ensures StartsRecorded(s')
  {
    hide Matches, Era;
    forall life | life in s'.started ensures life.era <= Era(s'.deletions, life.call.thread) {
      assert Forgotten(s, s', t, life.call);
    }
    forall life | life in s'.started && life == LifeOf(s', life.call)
      ensures life.call in s'.journal
          && (s'.journal[life.call].status.Running? || s'.journal[life.call].status.Completed?) {
      assert Forgotten(s, s', t, life.call);
    }
  }

  lemma ForgetAnswers(s: State, s': State, t: string)
    requires AnswersRecorded(s) && s'.answers == s.answers && forall c :: Forgotten(s, s', t, c)
    ensures AnswersRecorded(s')
  {
    hide Matches, Era;
    forall x | x in s'.answers ensures x.0.era <= Era(s'.deletions, x.0.call.thread) {
      assert Forgotten(s, s', t, x.0.call);
    }
    forall x | x in s'.answers && x.0 == LifeOf(s', x.0.call) ensures x.0.call in s'.journal
        && s'.journal[x.0.call].status == Completed(x.1) {
      assert Forgotten(s, s', t, x.0.call);
    }
  }

  lemma CommitLog(s: State, t: string)
    requires LogOk(s)
    ensures LogOk(ApplyEffect(s, Commit(t)))
  {
    hide ApplyEffect, Forgotten, StartsRecorded, AnswersRecorded;
    CommitForgets(s, t);
    ForgetStarts(s, ApplyEffect(s, Commit(t)), t);
    ForgetAnswers(s, ApplyEffect(s, Commit(t)), t);
  }

  lemma MoveKeepsLog(s: State, op: Op, m: Move)
    requires LogOk(s) && KnowsRow(s, op) && Faithful(s, op, m)
    ensures LogOk(ApplyEffect(s, m.effect))
  {
    hide ApplyEffect, LogOk;
    match m.effect
    case WriteRow(c, row) => WriteLog(s, c, row);
    case Complete(c, row) => CompleteLog(s, c, row);
    case Answer(c, r) => AnswerLog(s, c, r);
    case ExpireRows(t, calls) => ExpireLog(s, t, calls);
    case Start(c) => StartLog(s, c);
    case Commit(t) => CommitLog(s, t);
    case _ => NoLogEffect(s, m.effect); SameLogKeeps(s, ApplyEffect(s, m.effect), op);
  }

  // ---------------------------------------------------------------- what operations know of their rows

  /** Rows, starts and lives of a call after an effect on another thread. */
  ghost predicate SameCall(s: State, s': State, c: Call) {
    && (c in s'.journal <==> c in s.journal) && (c in s.journal ==> s'.journal[c] == s.journal[c])
    && s'.started[LifeOf(s', c)] == s.started[LifeOf(s, c)]
  }

  lemma SameCallKeeps(s: State, s': State, op: Op)
    requires HasCall(op.task) ==> SameCall(s, s', CallOf(op.task))
    requires KnowsRow(s, op)
    ensures KnowsRow(s', op)
  {
    hide LifeOf;
  }

  lemma RowElsewhere(s: State, e: Effect, c: Call)
    requires match e
             case WriteRow(d, _) => d.thread != c.thread
             case Complete(d, _) => d.thread != c.thread
             case ExpireRows(t, _) => t != c.thread
             case Start(d) => d.thread != c.thread
             case _ => false
    ensures SameCall(s, ApplyEffect(s, e), c)
  {
    hide Era;
  }

  lemma CommitElsewhere(s: State, t: string, c: Call)
    requires !Matches(c.thread, t)
    ensures SameCall(s, ApplyEffect(s, Commit(t)), c)
  {
    hide Era, Matches;
    EraStep(s.deletions, t, c.thread);
  }

  lemma AnswerElsewhere(s: State, d: Call, r: string, c: Call)
    ensures SameCall(s, ApplyEffect(s, Answer(d, r)), c)
  {
    hide Era;
  }

  /** An operation that knows anything of its row is inside its thread's scope. */
  predicate Careful(op: Op) {
    FreshPc(op) || RunningPc(op) || HandedPc(op)
  }

  lemma CarefulInside(op: Op)
    requires Careful(op)
    ensures HasCall(op.task) && InsideOf(op, op.task.thread) && Holds(op, ThreadKey(op.task.thread))
  {
  }

  lemma InsideHolds(op: Op, t: string)
    requires InsideOf(op, t)
    ensures Holds(op, ThreadKey(t))
  {
  }

  lemma CarelessKnows(s: State, op: Op)
    requires !Careful(op) && ObservesOnly(op)
    ensures KnowsRow(s, op)
  {
  }

  /** What an operation knows of its row stays true through another's moves: rows of a thread are written
      inside its scope, and deleted only once that is drained. */
  lemma MoveKeepsOther(s: State, id: nat, m: Move, o: nat)
    requires Mutex(s) && DeletionOk(s) && id in s.ops && o in s.ops && o != id
    requires Lawful(s, id, s.ops[id], m) && KnowsRow(s, s.ops[o])
    ensures KnowsRow(ApplyEffect(s, m.effect), s.ops[o])
  {
    hide ApplyEffect, Holds, Matches, KnowsRow, Careful, Faithful, EntersLawfully, StagesLawfully, ClosesLawfully,
        Inside, SameCall;
    var op, other, s' := s.ops[id], s.ops[o], ApplyEffect(s, m.effect);
    if !JournalEffect(m.effect) {
      NoLogEffect(s, m.effect);
      SameLogKeeps(s, s', other);
    } else if !Careful(other) {
      assert ObservesOnly(other) by { KnowsObserves(s, other); }
      CarelessKnows(s', other);
    } else {
      CarefulInside(other);
      var c := CallOf(other.task);
      match m.effect {
        case WriteRow(d, _) => InsideHolds(op, d.thread); RowElsewhere(s, m.effect, c);
        case Complete(d, _) => InsideHolds(op, d.thread); RowElsewhere(s, m.effect, c);
        case ExpireRows(t, _) => InsideHolds(op, t); RowElsewhere(s, m.effect, c);
        case Start(d) => InsideHolds(op, d.thread); RowElsewhere(s, m.effect, c);
        case Commit(t) =>
          HoldingDrains(s, id);
          CommitElsewhere(s, t, c);
        case Answer(d, r) => AnswerElsewhere(s, d, r, c);
        case _ =>
      }
      SameCallKeeps(s, s', other);
    }
  }

  lemma KnowsObserves(s: State, op: Op)
    requires KnowsRow(s, op)
    ensures ObservesOnly(op)
  {
  }

  /** The row of the operation's own call, just recorded. */
  lemma OwnWrite(s: State, op: Op, m: Move)
    requires LogOk(s) && KnowsRow(s, op) && m.effect.WriteRow? && Faithful(s, op, m)
    ensures KnowsRow(ApplyEffect(s, m.effect), m.next.value)
  {
    var c, s' := m.effect.call, ApplyEffect(s, m.effect);
    assert LifeOf(s', c) == LifeOf(s, c);
    assert s.started[LifeOf(s, c)] == 0;
  }

  lemma OwnExpire(s: State, op: Op, m: Move)
    requires KnowsRow(s, op) && m.effect.ExpireRows? && Faithful(s, op, m)
    ensures KnowsRow(ApplyEffect(s, m.effect), m.next.value)
  {
  }

  lemma OwnStart(s: State, op: Op, m: Move)
    requires KnowsRow(s, op) && m.effect.Start? && Faithful(s, op, m)
    ensures KnowsRow(ApplyEffect(s, m.effect), m.next.value)
  {
  }

  lemma MoveKeepsOwn(s: State, op: Op, m: Move)
    requires LogOk(s) && KnowsRow(s, op) && Faithful(s, op, m) && m.next.Some?
    ensures KnowsRow(ApplyEffect(s, m.effect), m.next.value)
  {
    hide ApplyEffect, KnowsRow, LogOk, FreshPc, RunningPc, HandedPc;
    match m.effect
    case WriteRow(_, _) => OwnWrite(s, op, m);
    case ExpireRows(_, _) => OwnExpire(s, op, m);
    case Start(_) => OwnStart(s, op, m);
    case Commit(_) => NoCallKnows(ApplyEffect(s, m.effect), m.next.value);
    case Complete(_, _) =>
    case Answer(_, _) =>
    case _ => NoLogEffect(s, m.effect); SameLogKeeps(s, ApplyEffect(s, m.effect), m.next.value);
  }

  lemma NoCallKnows(s: State, op: Op)
    requires !HasCall(op.task)
    ensures KnowsRow(s, op)
  {
  }

  // ---------------------------------------------------------------- steps

  lemma LogIgnoresOps(s: State, s1: State, e: Effect)
    requires s1 == s.(ops := s1.ops)
    ensures SameLog(ApplyEffect(s, e), ApplyEffect(s1, e))
  {
    if !JournalEffect(e) {
      hide ApplyEffect;
      NoLogEffect(s, e);
      NoLogEffect(s1, e);
    } else {
      hide Matches, Era;
      assert forall c :: LifeOf(s1, c) == LifeOf(s, c);
    }
  }

  lemma KidKnows(s: State, id: nat, op: Op, m: Move, k: nat)
    requires Lawful(s, id, op, m) && m.effect.SpawnAll? && k in m.effect.kids
    ensures !HasCall(m.effect.kids[k].task)
  {
    hide EntersLawfully, StagesLawfully, ClosesLawfully;
  }

  lemma PerformKeepsJournal(s: State, id: nat, m: Move)
    requires JournalOk(s) && Mutex(s) && DeletionOk(s) && id in s.ops
    requires Lawful(s, id, s.ops[id], m) && Faithful(s, s.ops[id], m)
    ensures JournalOk(Perform(s, id, m))
  {
    hide ApplyEffect, Lawful, Faithful, KnowsRow, StartsRecorded, AnswersRecorded, DeletionOk, Mutex;
    var op := s.ops[id];
    var s1 := s.(ops := match m.next case None => s.ops - {id} case Some(next) => s.ops[id := next]);
    var s0, s' := ApplyEffect(s, m.effect), Perform(s, id, m);
    LogIgnoresOps(s, s1, m.effect);
    EffectOps(s1, m.effect);
    MoveKeepsLog(s, op, m);
    SameLogKeeps(s0, s', op);
    forall o | o in s'.ops ensures KnowsRow(s', s'.ops[o]) {
      SameLogKeeps(s0, s', s'.ops[o]);
      if o in s1.ops && s'.ops[o] == s1.ops[o] {
        if o == id {
          MoveKeepsOwn(s, op, m);
        } else {
          MoveKeepsOther(s, id, m, o);
        }
      } else if m.effect.SpawnAll? {
        KidKnows(s, id, op, m, o);
        NoCallKnows(s', s'.ops[o]);
      } else {
        GatheringKnows(s', s1.ops[o]);
      }
    }
  }

  lemma GatheringKnows(s: State, op: Op)
    requires op.pc.Gathering?
    ensures KnowsRow(s, op.(pc := GatherFailed(op.pc.targets)))
  {
  }

  lemma StepKeepsJournal(s: State, s': State, id: nat, ch: Choice)
    requires JournalOk(s) && LocksOk(s) && DeletionOk(s) && (Work(s, s', id, ch) || Aborts(s, s', id, ch))
    ensures JournalOk(s')
  {
    hide Plan, Perform, Abort, Lawful, Faithful, KnowsRow, LogOk, Holds, DeletionOk, WellFormed, StartsRecorded,
        AnswersRecorded;
    var op := s.ops[id];
    if Work(s, s', id, ch) {
      PlanLawful(s, id, op, ch);
      PlanFaithful(s, id, op, ch);
      PerformKeepsJournal(s, id, Plan(s, id, op, ch).value);
    } else {
      AbortLawful(s, id, op, ch);
      AbortFaithful(s, op, ch);
      PerformKeepsJournal(s, id, Abort(op, ch));
    }
  }

  lemma QuietKnows(s: State, op: Op)
    requires WellFormed(op) && KnowsRow(s, op)
    ensures Wants(op).Some? ==> KnowsRow(s, Granted(op))
  {
    hide Era;
  }

  lemma InitialKnows(s: State, task: Task)
    ensures KnowsRow(s, Initial(task))
  {
  }

  lemma SpawnKeepsJournal(s: State, s': State, id: nat, task: Task)
    requires JournalOk(s) && Spawn(s, s', id, task)
    ensures JournalOk(s')
  {
    hide KnowsRow, LogOk, Initial, StartsRecorded, AnswersRecorded;
    InitialKnows(s, task);
    forall o | o in s'.ops ensures KnowsRow(s', s'.ops[o]) {
      SameLogKeeps(s, s', s'.ops[o]);
    }
    SameLogKeepsAll(s, s');
  }

  lemma SameLogKeepsAll(s: State, s': State)
    requires SameLog(s, s')
    ensures StartsRecorded(s) ==> StartsRecorded(s')
    ensures AnswersRecorded(s) ==> AnswersRecorded(s')
  {
    assert forall c :: LifeOf(s', c) == LifeOf(s, c);
  }

  lemma GrantKeepsJournal(s: State, s': State, id: nat)
    requires JournalOk(s) && AllWellFormed(s) && Grant(s, s', id)
    ensures JournalOk(s')
  {
    hide KnowsRow, LogOk, Wants, Granted, Holds, WellFormed, StartsRecorded, AnswersRecorded;
    QuietKnows(s, s.ops[id]);
    forall o | o in s'.ops ensures KnowsRow(s', s'.ops[o]) {
      SameLogKeeps(s, s', s'.ops[o]);
    }
    SameLogKeepsAll(s, s');
  }

  lemma OutsideKeepsJournal(s: State, s': State, id: string, token: nat)
    requires JournalOk(s) && (Outside(s, s', id, token) || s' == Crash(s))
    ensures JournalOk(s')
  {
    hide KnowsRow, LogOk, StartsRecorded, AnswersRecorded;
    forall o | o in s'.ops ensures KnowsRow(s', s'.ops[o]) {
      SameLogKeeps(s, s', s'.ops[o]);
    }
    SameLogKeepsAll(s, s');
  }

  lemma NextKeepsJournal(s: State, s': State)
    requires JournalOk(s) && LocksOk(s) && DeletionOk(s) && Next(s, s')
    ensures JournalOk(s')
  {
    hide Spawn, Grant, Work, Aborts, Outside, Crash, DeletionOk, Mutex, AllWellFormed, JournalOk;
    if id, task :| Spawn(s, s', id, task) {
      SpawnKeepsJournal(s, s', id, task);
    } else if id :| Grant(s, s', id) {
      GrantKeepsJournal(s, s', id);
    } else if id, ch :| Work(s, s', id, ch) {
      StepKeepsJournal(s, s', id, ch);
    } else if id, ch :| Aborts(s, s', id, ch) {
      StepKeepsJournal(s, s', id, ch);
    } else if id, token :| Outside(s, s', id, token) {
      OutsideKeepsJournal(s, s', id, token);
    } else {
      OutsideKeepsJournal(s, s', "", 0);
    }
  }

  lemma {:induction false} RunJournalOk(run: seq<State>, i: nat)
    requires Run(run) && i < |run|
    ensures JournalOk(run[i]) && DeletionOk(run[i]) && LocksOk(run[i])
  {
    hide Next;
    RunDeletionOk(run, i);
    if i > 0 {
      RunJournalOk(run, i - 1);
      NextKeepsJournal(run[i - 1], run[i]);
    }
  }

  // ---------------------------------------------------------------- rows over time

  /** The row stays, with its arguments and its status, until it is completed, and then with its result. */
  ghost predicate RowLasts(s: State, s': State, c: Call) {
    c in s.journal ==>
      && c in s'.journal && s'.journal[c].fp == s.journal[c].fp
      && (s'.journal[c].status == s.journal[c].status
          || (!s.journal[c].status.Completed? && s'.journal[c].status.Completed?))
  }

  lemma CommitKeepsRow(s: State, t: string, c: Call)
    ensures Matches(c.thread, t) || RowLasts(s, ApplyEffect(s, Commit(t)), c)
  {
    hide Matches;
  }

  lemma ExpiryKeepsRow(s: State, t: string, calls: set<string>, c: Call)
    ensures RowLasts(s, ApplyEffect(s, ExpireRows(t, calls)), c)
  {
  }

  lemma WriteKeepsRow(s: State, d: Call, row: Row, c: Call)
    requires d in s.journal ==> !s.journal[d].status.Completed?
    ensures d !in s.journal ==> RowLasts(s, ApplyEffect(s, WriteRow(d, row)), c)
    ensures row.status.Completed? ==> RowLasts(s, ApplyEffect(s, Complete(d, row)), c)
  {
    hide LifeOf;
  }

  lemma OtherKeepsRow(s: State, e: Effect, c: Call)
    requires e.Start? || e.Answer?
    ensures RowLasts(s, ApplyEffect(s, e), c)
  {
    hide LifeOf;
  }

  lemma EffectKeepsRow(s: State, op: Op, m: Move, c: Call)
    requires KnowsRow(s, op) && Faithful(s, op, m)
    ensures (m.effect.Commit? && Matches(c.thread, m.effect.thread)) || RowLasts(s, ApplyEffect(s, m.effect), c)
  {
    hide Matches, RowLasts, ApplyEffect;
    match m.effect
    case WriteRow(d, row) => WriteKeepsRow(s, d, row, c);
    case Complete(d, row) => WriteKeepsRow(s, d, row, c);
    case ExpireRows(t, calls) => ExpiryKeepsRow(s, t, calls, c);
    case Commit(t) => CommitKeepsRow(s, t, c);
    case Start(_) => OtherKeepsRow(s, m.effect, c);
    case Answer(_, _) => OtherKeepsRow(s, m.effect, c);
    case _ => NoLogEffect(s, m.effect); SameRows(s, ApplyEffect(s, m.effect), c);
  }

  lemma SameRows(s: State, s': State, c: Call)
    requires SameLog(s, s')
    ensures RowLasts(s, s', c)
  {
  }

  lemma EffectAgesCall(s: State, e: Effect, c: Call)
    ensures Era(ApplyEffect(s, e).deletions, c.thread) == Era(s.deletions, c.thread) + if e.Commit?
        && Matches(c.thread, e.thread) then 1 else 0
  {
    hide Matches, Era;
    if e.Commit? {
      EraStep(s.deletions, e.thread, c.thread);
    } else {
      hide ApplyEffect;
      Untouched(s, e);
    }
  }

  /** A step either keeps the row of a call, or is the deletion of its conversation, which starts the
      call's next life. */
  ghost predicate Ages(s: State, s': State, c: Call) {
    || (LifeOf(s', c) == LifeOf(s, c) && RowLasts(s, s', c))
    || LifeOf(s', c).era == LifeOf(s, c).era + 1
  }

  lemma MoveAges(s: State, id: nat, m: Move, c: Call)
    requires id in s.ops && KnowsRow(s, s.ops[id]) && Faithful(s, s.ops[id], m)
    ensures Ages(s, Perform(s, id, m), c)
  {
    hide ApplyEffect, KnowsRow, Faithful, Matches, Era;
    var s1 := s.(ops := match m.next case None => s.ops - {id} case Some(next) => s.ops[id := next]);
    LogIgnoresOps(s, s1, m.effect);
    EffectKeepsRow(s, s.ops[id], m, c);
    EffectAgesCall(s, m.effect, c);
  }

  lemma StepAges(s: State, s': State, id: nat, ch: Choice, c: Call)
    requires JournalOk(s) && LocksOk(s) && (Work(s, s', id, ch) || Aborts(s, s', id, ch))
    ensures Ages(s, s', c)
  {
    hide Plan, Perform, Abort, Faithful, KnowsRow, Ages, WellFormed;
    if Work(s, s', id, ch) {
      PlanFaithful(s, id, s.ops[id], ch);
      MoveAges(s, id, Plan(s, id, s.ops[id], ch).value, c);
    } else {
      AbortFaithful(s, s.ops[id], ch);
      MoveAges(s, id, Abort(s.ops[id], ch), c);
    }
  }

  lemma SameLogAges(s: State, s': State, c: Call)
    requires SameLog(s, s')
    ensures Ages(s, s', c)
  {
  }

  lemma SpawnQuiet(s: State, s': State, id: nat, task: Task)
    requires Spawn(s, s', id, task)
    ensures SameLog(s, s')
  {
    hide Initial;
  }

  lemma GrantQuiet(s: State, s': State, id: nat)
    requires Grant(s, s', id)
    ensures SameLog(s, s')
  {
    hide Wants, Granted, Free;
  }

  lemma OutsideQuiet(s: State, s': State, name: string, token: nat)
    requires Outside(s, s', name, token) || s' == Crash(s)
    ensures SameLog(s, s')
  {
  }

  lemma NextAges(s: State, s': State, c: Call)
    requires JournalOk(s) && LocksOk(s) && Next(s, s')
    ensures Ages(s, s', c)
  {
    hide Spawn, Grant, Work, Aborts, Outside, Crash, JournalOk, LocksOk, Ages, SameLog;
    if id, ch :| Work(s, s', id, ch) {
      StepAges(s, s', id, ch, c);
    } else if id, ch :| Aborts(s, s', id, ch) {
      StepAges(s, s', id, ch, c);
    } else {
      if id, task :| Spawn(s, s', id, task) {
        SpawnQuiet(s, s', id, task);
      } else if id :| Grant(s, s', id) {
        GrantQuiet(s, s', id);
      } else if name, token :| Outside(s, s', name, token) {
        OutsideQuiet(s, s', name, token);
      } else {
        OutsideQuiet(s, s', "", 0);
      }
      SameLogAges(s, s', c);
    }
  }

  /** Until a deletion a row stays, over several steps. */
  ghost predicate Keeps(s: State, s': State, c: Call) {
    LifeOf(s, c).era <= LifeOf(s', c).era && (LifeOf(s, c) == LifeOf(s', c) ==> RowLasts(s, s', c))
  }

  lemma KeepsCompose(s: State, s': State, s'': State, c: Call)
    requires Keeps(s, s', c) && Ages(s', s'', c)
    ensures Keeps(s, s'', c)
  {
    hide LifeOf;
    LifeIs(s, c);
    LifeIs(s', c);
    LifeIs(s'', c);
  }

  lemma KeepsItself(s: State, c: Call)
    ensures Keeps(s, s, c)
  {
    hide LifeOf;
  }

  lemma RunStep(run: seq<State>, k: nat)
    requires Run(run) && k + 1 < |run|
    ensures Next(run[k], run[k + 1])
  {
    hide Next;
  }

  lemma {:induction false} RunAges(run: seq<State>, i: nat, j: nat, c: Call)
    requires Run(run) && i <= j < |run|
    ensures Keeps(run[i], run[j], c)
  {
    hide Run, Next, Keeps, Ages, JournalOk, LocksOk;
    if i == j {
      KeepsItself(run[i], c);
    } else {
      RunAges(run, i, j - 1, c);
      RunJournalOk(run, j - 1);
      RunStep(run, j - 1);
      NextAges(run[j - 1], run[j], c);
      KeepsCompose(run[i], run[j - 1], run[j], c);
    }
  }

  lemma LifeIs(s: State, c: Call)
    ensures LifeOf(s, c) == CallLife(c, LifeOf(s, c).era)
  {
  }

  // ---------------------------------------------------------------- every reachable state

  /** At most once: over every run, the driver starts each life of a call at most once, and what it has
      started in the current life the journal shows as running or completed. */
  lemma StartsAtMostOnce(run: seq<State>, i: nat, life: CallLife)
    requires Run(run) && i < |run|
    ensures run[i].started[life] <= 1
    ensures life in run[i].started && life == LifeOf(run[i], life.call) ==>
              && life.call in run[i].journal
              && (run[i].journal[life.call].status.Running? || run[i].journal[life.call].status.Completed?)
  {
    hide Run;
    RunJournalOk(run, i);
  }

  /** Until a deletion covers its thread a call has only one life, so it starts at most once, whatever else is
      deleted. */
  lemma StartsAtMostOnceEver(run: seq<State>, i: nat, life: CallLife)
    requires Run(run) && i < |run| && Era(run[i].deletions, life.call.thread) == 0 && life in run[i].started
    ensures life == CallLife(life.call, 0) && run[i].started[life] == 1
  {
    hide Run;
    RunJournalOk(run, i);
  }

  lemma {:induction false} NoMatchingDeletion(deletions: seq<string>, thread: string)
    ensures Era(deletions, thread) == 0 <==> forall k :: 0 <= k < |deletions| ==> !Matches(thread, deletions[k])
  {
    hide Matches;
    if deletions != [] {
      NoMatchingDeletion(deletions[1..], thread);
      assert forall k :: 0 < k < |deletions| ==> deletions[k] == deletions[1..][k - 1];
    }
  }

  /** If a call has started twice, its conversation was deleted. */
  lemma StartsAgainOnlyAfterDeletion(run: seq<State>, i: nat, x: CallLife, y: CallLife)
    requires Run(run) && i < |run| && x in run[i].started && y in run[i].started && x != y && x.call == y.call
    ensures exists k :: 0 <= k < |run[i].deletions| && Matches(x.call.thread, run[i].deletions[k])
  {
    hide Run, Matches;
    if Era(run[i].deletions, x.call.thread) == 0 {
      StartsAtMostOnceEver(run, i, x);
      StartsAtMostOnceEver(run, i, y);
    }
    NoMatchingDeletion(run[i].deletions, x.call.thread);
  }

  /** All results returned for a life of a call are one result; in the current life, the recorded one. */
  lemma AnswersAgree(run: seq<State>, i: nat, life: CallLife, x: string, y: string)
    requires Run(run) && i < |run| && (life, x) in run[i].answers && (life, y) in run[i].answers
    ensures x == y
    ensures life == LifeOf(run[i], life.call) ==>
        life.call in run[i].journal && run[i].journal[life.call].status == Completed(x)
  {
    hide Run;
    RunJournalOk(run, i);
    var p, q := (life, x), (life, y);
    assert p in run[i].answers && q in run[i].answers && p.0 == q.0;
  }

  /** What starts has just been recorded, with its own arguments. */
  lemma StartsWithRecordedArguments(run: seq<State>, i: nat, id: nat, ch: Choice)
    requires Run(run) && i < |run| && id in run[i].ops
    requires Plan(run[i], id, run[i].ops[id], ch).Some? && Plan(run[i], id, run[i].ops[id], ch).value.effect.Start?
    ensures var op, c := run[i].ops[id], Plan(run[i], id, run[i].ops[id], ch).value.effect.call;
            op.task.Execute? && c == CallOf(op.task) && c in run[i].journal
                && run[i].journal[c] == Row(op.task.fp, Running)
  {
    hide Run, Plan;
    RunJournalOk(run, i);
    PlanFaithful(run[i], id, run[i].ops[id], ch);
  }

  /** A replay of a recorded call in the same life ends without effect when its arguments have changed or
      its outcome is unknown, and otherwise returns the result recorded. */
  lemma ReplayNeverRuns(run: seq<State>, i: nat, j: nat, c: Call, id: nat, ch: Choice)
    requires Run(run) && i <= j < |run| && c in run[i].journal && LifeOf(run[i], c) == LifeOf(run[j], c)
    requires id in run[j].ops && run[j].ops[id].pc.Replay? && Journaled(run[j].ops[id].task)
        && CallOf(run[j].ops[id].task) == c
    requires Plan(run[j], id, run[j].ops[id], ch).Some?
    ensures var m, row := Plan(run[j], id, run[j].ops[id], ch).value, run[i].journal[c];
            && (m == END || (m.next.None? && m.effect.Answer? && m.effect.call == c))
            && (run[j].ops[id].task.fp != row.fp ==> m == END)
            && (row.status.Completed? && run[j].ops[id].task.fp == row.fp && c.id != "" && run[j].ops[id].task.Execute?
                ==> m.effect == Answer(c, row.status.result))
  {
    hide Run;
    RunAges(run, i, j, c);
  }

  /** The same for a handoff: with other arguments it ends, an answered one returns what was recorded, one that
      waits for the user goes on to wait on the same session or returns the answer given since, and no replay
      offers the session a second time. */
  lemma HandoffReplayNeverOffers(run: seq<State>, i: nat, j: nat, c: Call, id: nat, ch: Choice)
    requires Run(run) && i <= j < |run| && c in run[i].journal && LifeOf(run[i], c) == LifeOf(run[j], c)
    requires id in run[j].ops && run[j].ops[id].pc.Reading? && run[j].ops[id].task.Handoff?
        && CallOf(run[j].ops[id].task) == c
    requires Plan(run[j], id, run[j].ops[id], ch).Some?
    ensures c in run[j].journal
    ensures var op, m, row := run[j].ops[id], Plan(run[j], id, run[j].ops[id], ch).value, run[i].journal[c];
            if op.task.fp != row.fp || c.id == "" then m == END
            else match row.status
              case Completed(r) => m == Move(None, Answer(c, r))
              case HandedOff(g) => m == Go(op, Parked(g)) || AnswersRecordedSince(run[j], c, m)
              case Running => m == END || AnswersRecordedSince(run[j], c, m)
  {
    hide Run;
    RunAges(run, i, j, c);
  }

  /** The move returns the result that the row has got by now. */
  predicate AnswersRecordedSince(s: State, c: Call, m: Move) {
    c in s.journal && s.journal[c].status.Completed? && m == Move(None, Answer(c, s.journal[c].status.result))
  }

  /** Deleting its conversation forgets a call: only then can it start again. */
  lemma DeletionForgets(s: State, t: string, c: Call)
    requires JournalOk(s)
    ensures var s' := ApplyEffect(s, Commit(t));
            Matches(c.thread, t) <==>
                (LifeOf(s', c) != LifeOf(s, c) && c !in s'.journal && s'.started[LifeOf(s', c)] == 0)
  {
    hide Era, Matches;
    EraStep(s.deletions, t, c.thread);
  }
}
