/** Which result a call gets: what an operation is about to record, and nothing else. */
module BrowserResults {
  import opened Prelude
  import opened ThreadIds
  import opened BrowserModel
  import opened BrowserLocks
  import opened BrowserDeletion
  import opened BrowserJournal
  import opened BrowserProgress
  import opened BrowserRestart

  /** The result that the operation is about to record: the driver's, that a session was closed, or the user's
      response to a handoff. */
  function ResultOf(op: Op): Option<string> {
    match op.pc
    case Driven(_, r) => if op.task.Execute? && Journaled(op.task) then Some(r) else None
    case CloseRecord => if op.task.Execute? && Journaled(op.task) then Some("closed") else None
    case HandRecord(r) => if op.task.Handoff? then Some(r) else None
    case _ => None
  }

  // ---------------------------------------------------------------- it is recorded

  /** The operation's own next step records exactly this result, with its arguments, and returns it. */
  lemma RecordsItsResult(run: seq<State>, i: nat, id: nat, ch: Choice)
    requires Run(run) && i + 1 < |run| && Work(run[i], run[i + 1], id, ch) && ResultOf(run[i].ops[id]).Some?
    ensures var op, s' := run[i].ops[id], run[i + 1];
            var c, r := CallOf(op.task), ResultOf(op).value;
            && c in s'.journal && s'.journal[c] == Row(op.task.fp, Completed(r))
            && LifeOf(s', c) == LifeOf(run[i], c) && (LifeOf(s', c), r) in s'.answers && id !in s'.ops
  {
    hide Run;
    RunJournalOk(run, i);
    assert KnowsRow(run[i], run[i].ops[id]);
    ResultPlan(run[i], id, run[i].ops[id], ch);
    CompletesRow(run[i], run[i + 1], id);
  }

  lemma ResultPlan(s: State, id: nat, op: Op, ch: Choice)
    requires ResultOf(op).Some?
    ensures Plan(s, id, op, ch) ==
            Some(Move(None, Complete(CallOf(op.task), Row(op.task.fp, Completed(ResultOf(op).value)))))
  {
  }

  lemma CompletesRow(s: State, s': State, id: nat)
    requires id in s.ops && ResultOf(s.ops[id]).Some? && KnowsRow(s, s.ops[id])
    requires var op := s.ops[id];
             s' == Perform(s, id, Move(None, Complete(CallOf(op.task), Row(op.task.fp, Completed(ResultOf(op).value)))))
    ensures var op := s.ops[id];
            var c, r := CallOf(op.task), ResultOf(op).value;
            && c in s'.journal && s'.journal[c] == Row(op.task.fp, Completed(r))
            && LifeOf(s', c) == LifeOf(s, c) && (LifeOf(s', c), r) in s'.answers && id !in s'.ops
  {
    hide Era;
  }

  /** And it is the call's result for good: in its row, and in every answer of the same life. */
  lemma ResultForGood(run: seq<State>, i: nat, j: nat, id: nat, ch: Choice)
    requires Run(run) && i + 1 <= j < |run| && Work(run[i], run[i + 1], id, ch) && ResultOf(run[i].ops[id]).Some?
    requires LifeOf(run[j], CallOf(run[i].ops[id].task)) == LifeOf(run[i], CallOf(run[i].ops[id].task))
    ensures var c, r := CallOf(run[i].ops[id].task), ResultOf(run[i].ops[id]).value;
            && c in run[j].journal && run[j].journal[c].status == Completed(r)
            && forall x :: (LifeOf(run[j], c), x) in run[j].answers ==> x == r
  {
    hide Run, Plan, Perform;
    RecordsItsResult(run, i, id, ch);
    var c, r := CallOf(run[i].ops[id].task), ResultOf(run[i].ops[id]).value;
    RunAges(run, i + 1, j, c);
    forall x | (LifeOf(run[j], c), x) in run[j].answers ensures x == r {
      AnswersAgree(run, j, LifeOf(run[j], c), x, x);
    }
  }

  // ---------------------------------------------------------------- nothing else is recorded

  /** The row has this result, or still says running and only operation `id` can complete it, with this result. */
  ghost predicate OnlyResult(s: State, c: Call, id: nat, r: string) {
    && c in s.journal
    && (s.journal[c].status == Completed(r)
        || (s.journal[c].status.Running? && forall o :: o in s.ops && Completes(s.ops[o], c) ==>
              o == id && ResultOf(s.ops[o]) == Some(r)))
  }

  predicate Completes(op: Op, c: Call) {
    RunningPc(op) && CallOf(op.task) == c
  }

  lemma StartNotRunning(s: State, id: nat, op: Op, ch: Choice)
    requires (StartPc(op.pc) || RowPc(op.pc) || LookPc(op.pc)) && WellFormed(op) && Plan(s, id, op, ch).Some?
    ensures BecomesRunning(op, Plan(s, id, op, ch).value)
  {
    hide Matches, Increasing, Busy, PendingHandoff;
  }

  lemma HoldNotRunning(s: State, id: nat, op: Op, ch: Choice)
    requires HoldPc(op.pc) && WellFormed(op) && Plan(s, id, op, ch).Some?
    ensures BecomesRunning(op, Plan(s, id, op, ch).value)
  {
    hide Matches, Increasing, Busy, PendingHandoff, IsOpen;
  }

  lemma DriveNotRunning(s: State, id: nat, op: Op, ch: Choice)
    requires DrivePc(op.pc) && WellFormed(op) && Plan(s, id, op, ch).Some?
    ensures BecomesRunning(op, Plan(s, id, op, ch).value)
  {
    hide Matches, Increasing, Busy, PendingHandoff, IsOpen;
  }

  lemma ElseNotRunning(s: State, id: nat, op: Op, ch: Choice)
    requires ElsePc(op.pc) && WellFormed(op) && Plan(s, id, op, ch).Some?
    ensures BecomesRunning(op, Plan(s, id, op, ch).value)
  {
    hide Matches, Increasing, Busy, PendingHandoff, ProperKids, ProperTargets, Gathered;
  }

  /** An action is under way after a segment only if it was before, or has just been recorded. */
  predicate BecomesRunning(op: Op, m: Move) {
    m.next.Some? && RunningPc(m.next.value) ==>
      m.next.value.task == op.task && (RunningPc(op) || m.effect.WriteRow?)
  }

  lemma PlanBecomesRunning(s: State, id: nat, op: Op, ch: Choice)
    requires WellFormed(op) && Plan(s, id, op, ch).Some?
    ensures BecomesRunning(op, Plan(s, id, op, ch).value)
  {
    hide Plan, BecomesRunning, WellFormed;
    if HoldPc(op.pc) {
      HoldNotRunning(s, id, op, ch);
    } else if DrivePc(op.pc) {
      DriveNotRunning(s, id, op, ch);
    } else if StartPc(op.pc) || RowPc(op.pc) || LookPc(op.pc) {
      StartNotRunning(s, id, op, ch);
    } else {
      ElseNotRunning(s, id, op, ch);
    }
  }

  /** Nobody who can complete the call comes up while its row says running. */
  lemma GrantNotRunning(op: Op)
    ensures RunningPc(Granted(op)) ==> RunningPc(op) && Granted(op).task == op.task
  {
  }

  lemma InitialNotRunning(task: Task)
    ensures !RunningPc(Initial(task))
  {
  }

  /** Operation `o` has made the step. */
  ghost predicate Moves(s: State, s': State, o: nat) {
    Grant(s, s', o) || exists ch :: Work(s, s', o, ch)
  }

  /** Who can complete the call after a step could before, unless the row was written just now. */
  ghost predicate CouldBefore(s: State, s': State, c: Call, o: nat) {
    o in s.ops && o in s'.ops
        && ((Completes(s.ops[o], c) && (s'.ops[o] == s.ops[o] || Moves(s, s', o))) || Writes(s, s', c, o))
  }

  ghost predicate Writes(s: State, s': State, c: Call, o: nat) {
    o in s.ops && HasCall(s.ops[o].task) && CallOf(s.ops[o].task) == c
        && exists ch :: Work(s, s', o, ch) && Plan(s, o, s.ops[o], ch).value.effect.WriteRow?
  }

  lemma StepCompleters(s: State, s': State, c: Call, o: nat)
    requires AllWellFormed(s) && Next(s, s') && o in s'.ops && Completes(s'.ops[o], c)
    ensures CouldBefore(s, s', c, o)
  {
    hide Spawn, Grant, Work, Aborts, Outside, Crash, Completes, CouldBefore, WellFormed;
    if id, task :| Spawn(s, s', id, task) {
      SpawnCompleters(s, s', id, task, c, o);
    } else if id :| Grant(s, s', id) {
      GrantCompleters(s, s', id, c, o);
    } else if id, ch :| Work(s, s', id, ch) {
      WorkCompleters(s, s', id, ch, c, o);
    } else if id, ch :| Aborts(s, s', id, ch) {
      AbortCompleters(s, s', id, ch, c, o);
    } else if name, token :| Outside(s, s', name, token) {
      OutsideCompleters(s, s', name, token, c, o);
    } else {
      OutsideCompleters(s, s', "", 0, c, o);
    }
  }

  lemma SpawnCompleters(s: State, s': State, id: nat, task: Task, c: Call, o: nat)
    requires Spawn(s, s', id, task) && o in s'.ops && Completes(s'.ops[o], c)
    ensures CouldBefore(s, s', c, o)
  {
    hide Initial, RunningPc, Moves, Writes;
    InitialNotRunning(task);
  }

  lemma GrantCompleters(s: State, s': State, id: nat, c: Call, o: nat)
    requires Grant(s, s', id) && o in s'.ops && Completes(s'.ops[o], c)
    ensures CouldBefore(s, s', c, o)
  {
    hide Granted, RunningPc, Wants, Holds, Writes;
    GrantNotRunning(s.ops[id]);
    assert Moves(s, s', id);
  }

  lemma OutsideCompleters(s: State, s': State, name: string, token: nat, c: Call, o: nat)
    requires (Outside(s, s', name, token) || s' == Crash(s)) && o in s'.ops && Completes(s'.ops[o], c)
    ensures CouldBefore(s, s', c, o)
  {
    hide RunningPc, Moves, Writes;
  }

  lemma WorkCompleters(s: State, s': State, id: nat, ch: Choice, c: Call, o: nat)
    requires AllWellFormed(s) && Work(s, s', id, ch) && o in s'.ops && Completes(s'.ops[o], c)
    ensures CouldBefore(s, s', c, o)
  {
    hide Plan, RunningPc, WellFormed, ApplyEffect, Lawful;
    var m := Plan(s, id, s.ops[id], ch).value;
    PlanLawful(s, id, s.ops[id], ch);
    LawfulOps(s, id, s.ops[id], m);
    OpsAfter(s, id, m);
    assert Comes(s, id, m, o, s'.ops[o]);
    if o == id {
      PlanBecomesRunning(s, id, s.ops[id], ch);
      assert m.next == Some(s'.ops[o]);
      RunningHasCall(s'.ops[o]);
    } else if !(o in s.ops && s'.ops[o] == s.ops[o]) {
      OtherNotRunning(s'.ops[o]);
    }
  }

  lemma RunningHasCall(op: Op)
    requires RunningPc(op)
    ensures HasCall(op.task)
  {
  }

  lemma LawfulOps(s: State, id: nat, op: Op, m: Move)
    requires Lawful(s, id, op, m)
    ensures m.effect.FailParent? ==> m.next.None?
    ensures m.effect.SpawnAll? ==> forall k :: k in m.effect.kids ==> k !in s.ops && m.effect.kids[k].task.CloseOne?
  {
    hide Matches, Gathered;
  }

  lemma OtherNotRunning(op: Op)
    requires op.task.CloseOne? || op.pc.GatherFailed?
    ensures !RunningPc(op)
  {
  }

  lemma AbortCompleters(s: State, s': State, id: nat, ch: Choice, c: Call, o: nat)
    requires AllWellFormed(s) && Aborts(s, s', id, ch) && o in s'.ops && Completes(s'.ops[o], c)
    ensures CouldBefore(s, s', c, o)
  {
    hide RunningPc, WellFormed, ApplyEffect, Lawful, Abort;
    var m := Abort(s.ops[id], ch);
    AbortLawful(s, id, s.ops[id], ch);
    LawfulOps(s, id, s.ops[id], m);
    OpsAfter(s, id, m);
    assert Comes(s, id, m, o, s'.ops[o]);
    if o == id {
      AbortNotRunning(s.ops[id], ch);
    } else if !(o in s.ops && s'.ops[o] == s.ops[o]) {
      OtherNotRunning(s'.ops[o]);
    }
  }

  lemma AbortNotRunning(op: Op, ch: Choice)
    ensures Abort(op, ch).next.Some? ==> !RunningPc(Abort(op, ch).next.value)
  {
  }

  lemma FreshWrites(s: State, s': State, c: Call, o: nat)
    requires JournalOk(s) && AllWellFormed(s) && c in s.journal
    ensures !Writes(s, s', c, o)
  {
    hide Plan, Perform, KnowsRow, FreshPc, WellFormed;
    if o in s.ops && HasCall(s.ops[o].task) && CallOf(s.ops[o].task) == c {
      forall ch | Work(s, s', o, ch) ensures !Plan(s, o, s.ops[o], ch).value.effect.WriteRow? {
        PlanFaithful(s, o, s.ops[o], ch);
        if Plan(s, o, s.ops[o], ch).value.effect.WriteRow? {
          FreshHasNoRow(s, s.ops[o]);
        }
      }
    }
  }

  lemma FreshHasNoRow(s: State, op: Op)
    requires KnowsRow(s, op) && FreshPc(op)
    ensures HasCall(op.task) && CallOf(op.task) !in s.journal
  {
  }

  /** An operation with a result to record does not wait, and ends with its own step. */
  lemma ResultEnds(s: State, s': State, o: nat)
    requires o in s.ops && ResultOf(s.ops[o]).Some? && Moves(s, s', o)
    ensures o !in s'.ops
  {
    hide Plan;
    assert Wants(s.ops[o]).None?;
    if ch :| Work(s, s', o, ch) {
      ResultPlan(s, o, s.ops[o], ch);
    }
  }

  lemma StillOnlyResult(s: State, s': State, c: Call, id: nat, r: string)
    requires JournalOk(s) && AllWellFormed(s) && Next(s, s') && OnlyResult(s, c, id, r) && s.journal[c].status.Running?
    ensures forall o :: o in s'.ops && Completes(s'.ops[o], c) ==> o == id && ResultOf(s'.ops[o]) == Some(r)
  {
    hide Next, Completes, Moves, Writes, ResultOf;
    forall o | o in s'.ops && Completes(s'.ops[o], c) ensures o == id && ResultOf(s'.ops[o]) == Some(r) {
      StepCompleters(s, s', c, o);
      FreshWrites(s, s', c, o);
      if s'.ops[o] != s.ops[o] {
        ResultEnds(s, s', o);
      }
    }
  }

  /** Operation `o` makes the step by move `m`, which completes the row of `c`. */
  ghost predicate CompletedBy(s: State, s': State, c: Call, o: nat, ch: Choice, m: Move) {
    && o in s.ops && c in s'.journal && Plan(s, o, s.ops[o], ch) == Some(m) && s' == Perform(s, o, m)
    && m.effect.Complete? && m.effect.call == c && m.effect.row.status == s'.journal[c].status
  }

  lemma FaithfulFacts(s: State, op: Op, m: Move)
    requires KnowsRow(s, op) && Faithful(s, op, m)
    ensures m.effect.WriteRow? ==> m.effect.call !in s.journal
  {
    hide Matches, Era;
    if m.effect.WriteRow? {
      FreshHasNoRow(s, op);
    }
  }

  lemma EffectCompletes(s: State, op: Op, m: Move, c: Call)
    requires KnowsRow(s, op) && Faithful(s, op, m) && c in s.journal && s.journal[c].status.Running?
    requires c in ApplyEffect(s, m.effect).journal && ApplyEffect(s, m.effect).journal[c].status.Completed?
    ensures m.effect.Complete? && m.effect.call == c
    ensures m.effect.row.status == ApplyEffect(s, m.effect).journal[c].status
  {
    FaithfulFacts(s, op, m);
    hide KnowsRow, Faithful, Matches, Era, ApplyEffect;
    if !JournalEffect(m.effect) {
      NoLogEffect(s, m.effect);
    } else {
      JournalAfter(s, m.effect, c);
    }
  }

  lemma JournalAfter(s: State, e: Effect, c: Call)
    requires JournalEffect(e) && c in s.journal && s.journal[c].status.Running? && c in ApplyEffect(s, e).journal
    requires e.WriteRow? ==> e.call !in s.journal
    ensures ApplyEffect(s, e).journal[c].status ==
            if e.Complete? && e.call == c then e.row.status else s.journal[c].status
  {
    hide Matches, Era;
  }

  lemma AbortEffect(op: Op, ch: Choice)
    ensures var e := Abort(op, ch).effect; e.Nothing? || e.SetHuman? || e.Pop? || e.FailParent? || e.Unmark?
  {
  }

  lemma WorkCompletes(s: State, s': State, id: nat, ch: Choice, c: Call) returns (m: Move)
    requires JournalOk(s) && AllWellFormed(s) && Work(s, s', id, ch) && c in s.journal && s.journal[c].status.Running?
    requires c in s'.journal && s'.journal[c].status.Completed?
    ensures CompletedBy(s, s', c, id, ch, m)
  {
    hide Plan, ApplyEffect, KnowsRow, WellFormed, Faithful;
    var op := s.ops[id];
    m := Plan(s, id, op, ch).value;
    PlanFaithful(s, id, op, ch);
    var s1 := s.(ops := match m.next case None => s.ops - {id} case Some(next) => s.ops[id := next]);
    LogIgnoresOps(s, s1, m.effect);
    EffectCompletes(s, op, m, c);
  }

  lemma AbortsComplete(s: State, s': State, id: nat, ch: Choice, c: Call)
    requires Aborts(s, s', id, ch)
    ensures s'.journal == s.journal
  {
    hide Abort, ApplyEffect;
    var m := Abort(s.ops[id], ch);
    var s1 := s.(ops := match m.next case None => s.ops - {id} case Some(next) => s.ops[id := next]);
    AbortEffect(s.ops[id], ch);
    NoLogEffect(s1, m.effect);
  }

  lemma StepCompletes(s: State, s': State, c: Call) returns (o: nat, ch: Choice, m: Move)
    requires JournalOk(s) && AllWellFormed(s) && Next(s, s') && c in s.journal && s.journal[c].status.Running?
    requires c in s'.journal && s'.journal[c].status.Completed?
    ensures CompletedBy(s, s', c, o, ch, m)
  {
    hide Next, Work, CompletedBy, JournalOk, AllWellFormed;
    if forall id, choice :: !Work(s, s', id, choice) {
      NotWorked(s, s', c);
    }
    o, ch :| Work(s, s', o, ch);
    m := WorkCompletes(s, s', o, ch, c);
  }

  lemma NotWorked(s: State, s': State, c: Call)
    requires Next(s, s') && !exists id, ch :: Work(s, s', id, ch)
    ensures s'.journal == s.journal
  {
    hide Spawn, Grant, Work, Aborts, Outside, Crash;
    if id, task :| Spawn(s, s', id, task) {
      SpawnQuiet(s, s', id, task);
    } else if id :| Grant(s, s', id) {
      GrantQuiet(s, s', id);
    } else if id, ch :| Aborts(s, s', id, ch) {
      AbortsComplete(s, s', id, ch, c);
    } else if name, token :| Outside(s, s', name, token) {
      OutsideQuiet(s, s', name, token);
    } else {
      OutsideQuiet(s, s', "", 0);
    }
  }

  lemma CompletedIsResult(s: State, s': State, c: Call, o: nat, ch: Choice, m: Move)
    requires JournalOk(s) && AllWellFormed(s) && CompletedBy(s, s', c, o, ch, m) && c in s.journal
        && s.journal[c].status.Running?
    ensures o in s.ops && Completes(s.ops[o], c)
    ensures ResultOf(s.ops[o]).Some? ==> s'.journal[c].status == Completed(ResultOf(s.ops[o]).value)
  {
    hide Plan, Perform, WellFormed;
    PlanFaithful(s, o, s.ops[o], ch);
    assert KnowsRow(s, s.ops[o]);
    if ResultOf(s.ops[o]).Some? {
      ResultPlan(s, o, s.ops[o], ch);
    }
  }

  lemma OnlyResultStep(s: State, s': State, c: Call, id: nat, r: string)
    requires JournalOk(s) && LocksOk(s) && Next(s, s') && OnlyResult(s, c, id, r) && LifeOf(s', c) == LifeOf(s, c)
    ensures OnlyResult(s', c, id, r)
  {
    hide Next, JournalOk, Completes, ResultOf, CompletedBy, LifeOf, AllWellFormed;
    NextAges(s, s', c);
    assert RowLasts(s, s', c) by { LifeIs(s, c); }
    if s.journal[c].status.Running? {
      StillOnlyResult(s, s', c, id, r);
      if s'.journal[c].status.Completed? {
        var o, ch, m := StepCompletes(s, s', c);
        CompletedIsResult(s, s', c, o, ch, m);
      }
    }
  }

  lemma {:induction false} RunOnlyResult(run: seq<State>, i: nat, j: nat, c: Call, id: nat, r: string)
    requires Run(run) && i <= j < |run| && OnlyResult(run[i], c, id, r) && LifeOf(run[j], c) == LifeOf(run[i], c)
    ensures OnlyResult(run[j], c, id, r)
  {
    hide Run, Next, OnlyResult, JournalOk, LifeOf, Keeps;
    if i < j {
      RunAges(run, i, j - 1, c);
      RunAges(run, j - 1, j, c);
      SameEra(run[i], run[j - 1], run[j], c);
      RunOnlyResult(run, i, j - 1, c, id, r);
      RunJournalOk(run, j - 1);
      RunLocksOk(run, j - 1);
      RunStep(run, j - 1);
      OnlyResultStep(run[j - 1], run[j], c, id, r);
    }
  }

  lemma SameEra(a: State, b: State, d: State, c: Call)
    requires Keeps(a, b, c) && Keeps(b, d, c) && LifeOf(d, c) == LifeOf(a, c)
    ensures LifeOf(b, c) == LifeOf(a, c)
  {
    hide Era;
  }

  /** What an action is about to record when it holds the driver's result, or has closed the session, is the only
      result that its call can ever get in this life, even if the operation ends before it has recorded it. */
  lemma ActionGetsItsResult(run: seq<State>, i: nat, j: nat, id: nat)
    requires Run(run) && i <= j < |run| && id in run[i].ops && run[i].ops[id].task.Execute?
    requires ResultOf(run[i].ops[id]).Some?
    requires LifeOf(run[j], CallOf(run[i].ops[id].task)) == LifeOf(run[i], CallOf(run[i].ops[id].task))
    ensures var c, r := CallOf(run[i].ops[id].task), ResultOf(run[i].ops[id]).value;
            && c in run[j].journal
            && (run[j].journal[c].status == Completed(r) || run[j].journal[c].status.Running?)
            && forall x :: (LifeOf(run[j], c), x) in run[j].answers ==> x == r
  {
    hide Run, OnlyResult, LifeOf;
    var c, r := CallOf(run[i].ops[id].task), ResultOf(run[i].ops[id]).value;
    RunJournalOk(run, i);
    RunLocksOk(run, i);
    AloneCompletes(run[i], id);
    RunOnlyResult(run, i, j, c, id, r);
    OnlyResultMeans(run[j], c, id, r);
    LifeIs(run[j], c);
    forall x | (LifeOf(run[j], c), x) in run[j].answers ensures x == r {
      AnswersAgree(run, j, LifeOf(run[j], c), x, x);
    }
  }

  lemma OnlyResultMeans(s: State, c: Call, id: nat, r: string)
    requires OnlyResult(s, c, id, r)
    ensures c in s.journal && (s.journal[c].status == Completed(r) || s.journal[c].status.Running?)
  {
  }

  /** Its call's lock keeps everybody else away from the call. */
  lemma AloneCompletes(s: State, id: nat)
    requires JournalOk(s) && LocksOk(s) && id in s.ops && s.ops[id].task.Execute? && ResultOf(s.ops[id]).Some?
    ensures OnlyResult(s, CallOf(s.ops[id].task), id, ResultOf(s.ops[id]).value)
  {
    hide Holds, KnowsRow, RunningPc;
    var c := CallOf(s.ops[id].task);
    CompletesHolds(s.ops[id]);
    KnowsRunning(s, s.ops[id]);
    forall o | o in s.ops && Completes(s.ops[o], c) ensures o == id {
      CompletesHolds(s.ops[o]);
    }
  }

  lemma CompletesHolds(op: Op)
    ensures RunningPc(op) ==> HasCall(op.task) && Holds(op, CallKey(CallOf(op.task).thread, CallOf(op.task).id))
    ensures ResultOf(op).Some? && op.task.Execute? ==> RunningPc(op)
  {
  }

  lemma KnowsRunning(s: State, op: Op)
    requires KnowsRow(s, op) && RunningPc(op)
    ensures HasCall(op.task) && CallOf(op.task) in s.journal && s.journal[CallOf(op.task)].status.Running?
  {
  }

  // ---------------------------------------------------------------- from the driver to the answer

  /** The driver's result is taken as it is; a timeout or a cancellation gives none. */
  lemma DriverResult(s: State, id: nat, op: Op, ch: Choice)
    requires op.pc.Driving?
    ensures Plan(s, id, op, ch) == Some(if ch.flag then Move(Some(op.(pc := Driven(op.pc.gen, ch.text))), Nothing)
        else Move(Some(op.(pc := Disposing(op.pc.gen, ToFail))), MarkClosed(op.pc.gen)))
  {
  }

  /** So when the driver returns a value for an action, the call has this value as its result or none, for good. */
  lemma DriverDecides(run: seq<State>, i: nat, j: nat, id: nat, ch: Choice)
    requires Run(run) && i + 1 <= j < |run| && Work(run[i], run[i + 1], id, ch) && ch.flag
    requires run[i].ops[id].pc.Driving? && run[i].ops[id].task.Execute? && Journaled(run[i].ops[id].task)
    requires LifeOf(run[j], CallOf(run[i].ops[id].task)) == LifeOf(run[i], CallOf(run[i].ops[id].task))
    ensures var c := CallOf(run[i].ops[id].task);
            && c in run[j].journal
            && (run[j].journal[c].status == Completed(ch.text) || run[j].journal[c].status.Running?)
            && forall x :: (LifeOf(run[j], c), x) in run[j].answers ==> x == ch.text
  {
    hide Run, Plan, Era;
    DriverResult(run[i], id, run[i].ops[id], ch);
    ActionGetsItsResult(run, i + 1, j, id);
  }

  // ---------------------------------------------------------------- a handoff that ends early

  function Asker(c: Call, fp: string, pc: Pc): Op {
    Op(Handoff(c.thread, c.id, fp), pc)
  }

  lemma AskerEnters(b: State, s: State, c: Call, fp: string)
    requires Leads(b, s) && s == Crash(s) && c.id != ""
    ensures Leads(b, Alone(s, Asker(c, fp, Reading)))
  {
    hide Leads;
    AloneSpawns(b, s, Asker(c, fp, AtThread).task);
    AloneGranted(b, s, Asker(c, fp, AtThread));
    AloneGoes(b, s, Asker(c, fp, Entering), ANY, InThread);
    AloneGoes(b, s, Asker(c, fp, InThread), ANY, AtCall);
    AloneGranted(b, s, Asker(c, fp, AtCall));
    NothingExpires(s, c.thread);
    AloneWorks(b, s, Asker(c, fp, Expiring(First)), ANY, Asker(c, fp, Reading), ExpireRows(c.thread, {}), s);
  }

  function Answered(s: State, c: Call, fp: string, x: string): State {
    s.(journal := Recorded(s.journal, c, Row(fp, Completed(x))), answers := s.answers + {(LifeOf(s, c), x)})
  }

  lemma AskerAnswers(b: State, s: State, c: Call, x: string)
    requires s == Crash(s) && c in s.journal && s.journal[c].status.HandedOff? && c.id != ""
    requires Leads(b, Alone(s, Asker(c, s.journal[c].fp, Reading)))
    ensures exists s' :: Leads(b, s') && CompletedAs(s', c, x) && s'.deletions == s.deletions
  {
    hide Leads, Era;
    var fp, g := s.journal[c].fp, s.journal[c].status.gen;
    AloneGoes(b, s, Asker(c, fp, Reading), ANY, Parked(g));
    AloneGoes(b, s, Asker(c, fp, Parked(g)), ANY.(text := x), HandRecord(x));
    AskerRecords(b, s, c, fp, x);
    var s' := Answered(s, c, fp, x);
    assert CompletedAs(s', c, x);
  }

  lemma AskerRecords(b: State, s: State, c: Call, fp: string, x: string)
    requires s.ops == map[] && Leads(b, Alone(s, Asker(c, fp, HandRecord(x))))
    ensures Leads(b, Answered(s, c, fp, x))
  {
    hide Leads, Era;
    var before, m := Alone(s, Asker(c, fp, HandRecord(x))), Move(None, Complete(c, Row(fp, Completed(x))));
    var s' := Answered(s, c, fp, x);
    assert before.ops - {0} == map[];
    assert Perform(before, 0, m) == s';
    assert Work(before, s', 0, ANY);
    LeadsNext(b, before, s');
  }

  predicate CompletedAs(s: State, c: Call, x: string) {
    c in s.journal && s.journal[c].status == Completed(x)
  }

  /** A handoff is different: while its row waits for the user any result may still be recorded, so an operation
      that ends before it has recorded a response leaves the matter open. */
  lemma HandedOffIsOpen(s: State, c: Call, x: string)
    requires c in s.journal && s.journal[c].status.HandedOff? && c.id != ""
    ensures exists s' :: Leads(s, s') && CompletedAs(s', c, x) && s'.deletions == s.deletions
  {
    hide Leads, CompletedAs;
    LeadsItself(s);
    CrashLeads(s);
    AskerEnters(s, Crash(s), c, s.journal[c].fp);
    AskerAnswers(s, Crash(s), c, x);
  }

  lemma CrashLeads(s: State)
    ensures Leads(s, Crash(s)) && Crash(Crash(s)) == Crash(s) && Crash(s).journal == s.journal
        && Crash(s).deletions == s.deletions
  {
    hide Leads, Spawn, Grant, Work, Aborts, Outside;
    LeadsItself(s);
    LeadsNext(s, s, Crash(s));
  }

  /** An operation with a response to record leaves the row waiting if it ends by anything but its own step. */
  lemma AbortLeavesOpen(run: seq<State>, i: nat, id: nat, ch: Choice)
    requires Run(run) && i + 1 < |run| && Aborts(run[i], run[i + 1], id, ch)
    requires run[i].ops[id].pc.HandRecord? && run[i].ops[id].task.Handoff?
    ensures var c := CallOf(run[i].ops[id].task);
            && id !in run[i + 1].ops && c in run[i + 1].journal && run[i + 1].journal[c] == run[i].journal[c]
            && run[i].journal[c].status.HandedOff?
  {
    hide Run;
    RunJournalOk(run, i);
    assert KnowsRow(run[i], run[i].ops[id]);
  }
}
