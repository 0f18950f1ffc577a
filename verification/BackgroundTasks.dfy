/** Background tasks: attempts and retries of one task, bounded history, and bounded event queues. */
module BackgroundTasks {
  import opened Prelude
  import opened Ordering

  const MAX_COMPLETED_TASKS := 100
  const TASK_EVENT_QUEUE_SIZE := 100

  // ---------------------------------------------------------------- one task's life

  datatype Status = Pending | Running | Completed | Failed | Cancelled

  predicate Terminal(status: Status) {
    status.Completed? || status.Failed? || status.Cancelled?
  }

  /** Where the task's coroutine is: created, before the attempt's `try`, inside it, in its `finally` with a
      retry or with a result, after the done event, or over. */
  datatype Phase = Queued | Starting | Working | Retrying | Settled | Announced | Over

  datatype Outcome = Success | TimedOut | Errored | Interrupted

  /** `attempts` and `doneEvents` only observe. */
  datatype Life = Life(
    status: Status, retryCount: nat, maxRetries: nat, startedAt: Option<int>, completedAt: Option<int>,
    phase: Phase, attempts: nat, doneEvents: nat)

  datatype Step =
    | Begin(now: int)
    | Enter
    | Settle(outcome: Outcome, now: int)
    | Retry
    | Announce
    | Finish
    | Lose

  function Submitted(maxRetries: int): Life {
    Life(Pending, 0, Max(0, maxRetries), None, None, Queued, 0, 0)
  }

  /** `Lose` is a cancellation or an error that escapes the coroutine at an await outside the `try`. */
  predicate Enabled(t: Life, step: Step) {
    match step
    case Begin(_) => t.phase.Queued?
    case Enter => t.phase.Starting?
    case Settle(_, _) => t.phase.Working?
    case Retry => t.phase.Retrying?
    case Announce => t.phase.Settled?
    case Finish => t.phase.Announced?
    case Lose => !t.phase.Working? && !t.phase.Over?
  }

  function Settling(t: Life, outcome: Outcome, now: int): Life {
    match outcome
    case Success => t.(status := Completed, completedAt := Some(now), phase := Settled)
    case Interrupted => t.(status := Cancelled, completedAt := Some(now), phase := Settled)
    case _ =>
      if t.retryCount + 1 <= t.maxRetries
          then t.(status := Pending, startedAt := None, retryCount := t.retryCount + 1, phase := Retrying)
      else t.(status := Failed, completedAt := Some(now), retryCount := t.retryCount + 1, phase := Settled)
  }

  function Stepped(t: Life, step: Step): Life {
    match step
    case Begin(now) => t.(status := Running, startedAt := Some(now), attempts := t.attempts + 1, phase := Starting)
    case Enter => t.(phase := Working)
    case Settle(outcome, now) => Settling(t, outcome, now)
    case Retry => t.(phase := Queued)
    case Announce => t.(doneEvents := t.doneEvents + 1, phase := Announced)
    case Finish => t.(phase := Over)
    case Lose => t.(phase := Over)
  }

  ghost predicate LifeOk(t: Life) {
    && t.retryCount <= t.attempts <= t.retryCount + 1 && t.attempts <= t.maxRetries + 1
    && (t.phase.Queued? || t.phase.Retrying? ==> t.attempts == t.retryCount <= t.maxRetries && t.status.Pending?)
    && (t.phase.Starting? || t.phase.Working? ==> t.attempts == t.retryCount + 1 && t.status.Running?)
    && (t.phase.Settled? || t.phase.Announced? ==> Terminal(t.status))
    && (Terminal(t.status) ==> t.phase.Settled? || t.phase.Announced? || t.phase.Over?)
    && (Terminal(t.status) <==> t.completedAt.Some?)
    && t.doneEvents <= 1 && (t.doneEvents == 1 ==> t.phase.Announced? || (t.phase.Over? && Terminal(t.status)))
    && (t.phase.Announced? ==> t.doneEvents == 1)
  }

  lemma StepKeepsLife(t: Life, step: Step)
    requires LifeOk(t) && Enabled(t, step)
    ensures LifeOk(Stepped(t, step))
    ensures Terminal(t.status) ==> Stepped(t, step).status == t.status && Stepped(t, step).completedAt == t.completedAt
    ensures Stepped(t, step).maxRetries == t.maxRetries
  {
  }

  /** A measure that every step decreases. */
  function Remaining(t: Life): nat
    requires t.attempts <= t.maxRetries + 1
  {
    7 * (t.maxRetries + 1 - t.attempts) + match t.phase
      case Starting => 6
      case Working => 5
      case Retrying => 4
      case Settled => 4
      case Queued => 3
      case Announced => 3
      case Over => 0
  }

  lemma StepsRunOut(t: Life, step: Step)
    requires LifeOk(t) && Enabled(t, step)
    ensures Stepped(t, step).attempts <= t.maxRetries + 1 && Stepped(t, step).maxRetries == t.maxRetries
    ensures Remaining(Stepped(t, step)) < Remaining(t)
  {
  }

  ghost predicate Run(run: seq<Life>, steps: seq<Step>, maxRetries: int) {
    && |run| == |steps| + 1 && run[0] == Submitted(maxRetries)
    && forall i :: 0 <= i < |steps| ==> Enabled(run[i], steps[i]) && run[i + 1] == Stepped(run[i], steps[i])
  }

  lemma {:induction false} RunOk(run: seq<Life>, steps: seq<Step>, maxRetries: int, i: nat)
    requires Run(run, steps, maxRetries) && i < |run|
    ensures LifeOk(run[i]) && run[i].maxRetries == Max(0, maxRetries)
    ensures Remaining(run[i]) + i <= 7 * (Max(0, maxRetries) + 1) + 3
  {
    if i > 0 {
      RunOk(run, steps, maxRetries, i - 1);
      StepKeepsLife(run[i - 1], steps[i - 1]);
      StepsRunOut(run[i - 1], steps[i - 1]);
    }
  }

  /** Whatever fails, times out or is cancelled, a task makes at most one attempt more than its retries,
      publishes at most one done event, carries a completion time exactly when its status is final, and
      runs out of steps. */
  lemma LifeIsBounded(run: seq<Life>, steps: seq<Step>, maxRetries: int, i: nat)
    requires Run(run, steps, maxRetries) && i < |run|
    ensures run[i].attempts <= Max(0, maxRetries) + 1 && run[i].doneEvents <= 1
    ensures run[i].doneEvents == 1 ==> Terminal(run[i].status)
    ensures Terminal(run[i].status) <==> run[i].completedAt.Some?
    ensures i <= 7 * (Max(0, maxRetries) + 1) + 3
  {
    RunOk(run, steps, maxRetries, i);
  }

  /** A final status is never left. */
  lemma {:induction false} TerminalForever(run: seq<Life>, steps: seq<Step>, maxRetries: int, i: nat, j: nat)
    requires Run(run, steps, maxRetries) && i <= j < |run| && Terminal(run[i].status)
    ensures run[j].status == run[i].status && run[j].completedAt == run[i].completedAt
  {
    if i < j {
      TerminalForever(run, steps, maxRetries, i, j - 1);
      RunOk(run, steps, maxRetries, j - 1);
      StepKeepsLife(run[j - 1], steps[j - 1]);
    }
  }

  // ---------------------------------------------------------------- what the steps say

  function Tally(steps: seq<Step>, counts: Step -> bool): nat {
    if steps == [] then 0
    else Tally(steps[..|steps| - 1], counts) + if counts(steps[|steps| - 1]) then 1 else 0
  }

  function Begins(): Step -> bool {
    (step: Step) => step.Begin?
  }

  function Failures(): Step -> bool {
    (step: Step) => step.Settle? && (step.outcome.TimedOut? || step.outcome.Errored?)
  }

  function DoneEvents(): Step -> bool {
    (step: Step) => step.Announce?
  }

  /** The counters count: attempts begun, attempts that failed, done events published. */
  lemma {:induction false} CountersCount(run: seq<Life>, steps: seq<Step>, maxRetries: int, i: nat)
    requires Run(run, steps, maxRetries) && i < |run|
    ensures run[i].attempts == Tally(steps[..i], Begins())
    ensures run[i].retryCount == Tally(steps[..i], Failures())
    ensures run[i].doneEvents == Tally(steps[..i], DoneEvents())
  {
    if i > 0 {
      CountersCount(run, steps, maxRetries, i - 1);
      assert steps[..i][..i - 1] == steps[..i - 1];
    }
  }

  /** Step `k` ended an attempt with this outcome at time `now`. */
  predicate SettledAt(steps: seq<Step>, k: nat, outcome: Outcome, now: int) {
    k < |steps| && steps[k] == Settle(outcome, now)
  }

  /** Step `k` was a timeout or an error when all retries had been used up. */
  predicate FailedForGood(steps: seq<Step>, k: nat, maxRetries: int, now: int) {
    && (SettledAt(steps, k, TimedOut, now) || SettledAt(steps, k, Errored, now))
    && Tally(steps[..k], Failures()) >= Max(0, maxRetries)
  }

  /** What gave a task its final status and its completion time. */
  ghost predicate Decided(t: Life, steps: seq<Step>, maxRetries: int) {
    && (t.status.Completed? ==>
          exists k: nat, now :: SettledAt(steps, k, Outcome.Success, now) && t.completedAt == Some(now))
    && (t.status.Cancelled? ==>
          exists k: nat, now :: SettledAt(steps, k, Interrupted, now) && t.completedAt == Some(now))
    && (t.status.Failed? ==>
          exists k: nat, now :: FailedForGood(steps, k, maxRetries, now) && t.completedAt == Some(now))
  }

  lemma SettledLater(steps: seq<Step>, i: nat, maxRetries: int)
    requires i <= |steps|
    ensures forall k: nat, outcome, now :: SettledAt(steps[..i], k, outcome, now) ==> SettledAt(steps, k, outcome, now)
    ensures forall k: nat, now :: FailedForGood(steps[..i], k, maxRetries, now) ==>
        FailedForGood(steps, k, maxRetries, now)
  {
    forall k: nat, now | FailedForGood(steps[..i], k, maxRetries, now)
      ensures FailedForGood(steps, k, maxRetries, now) {
      assert steps[..i][..k] == steps[..k];
    }
  }

  lemma SettleDecides(t: Life, steps: seq<Step>, maxRetries: int, outcome: Outcome, now: int)
    requires LifeOk(t) && Enabled(t, Settle(outcome, now)) && t.maxRetries == Max(0, maxRetries)
    requires t.retryCount == Tally(steps, Failures())
    ensures Decided(Stepped(t, Settle(outcome, now)), steps + [Settle(outcome, now)], maxRetries)
  {
    var longer := steps + [Settle(outcome, now)];
    assert SettledAt(longer, |steps|, outcome, now) && longer[..|steps|] == steps;
    if Stepped(t, Settle(outcome, now)).status.Failed? {
      assert FailedForGood(longer, |steps|, maxRetries, now);
    }
  }

  lemma DecidedLater(t: Life, t': Life, steps: seq<Step>, i: nat, maxRetries: int)
    requires i <= |steps| && Decided(t, steps[..i], maxRetries)
    requires Terminal(t'.status) ==> t'.status == t.status && t'.completedAt == t.completedAt
    ensures Decided(t', steps, maxRetries)
  {
    SettledLater(steps, i, maxRetries);
    hide SettledAt, FailedForGood;
  }

  lemma {:induction false} RunDecided(run: seq<Life>, steps: seq<Step>, maxRetries: int, i: nat)
    requires Run(run, steps, maxRetries) && i < |run|
    ensures Decided(run[i], steps[..i], maxRetries)
  {
    if i > 0 {
      RunDecided(run, steps, maxRetries, i - 1);
      RunOk(run, steps, maxRetries, i - 1);
      CountersCount(run, steps, maxRetries, i - 1);
      assert steps[..i] == steps[..i - 1] + [steps[i - 1]] && steps[..i][..i - 1] == steps[..i - 1];
      if steps[i - 1].Settle? {
        hide Decided;
        SettleDecides(run[i - 1], steps[..i - 1], maxRetries, steps[i - 1].outcome, steps[i - 1].now);
      } else {
        hide Decided;
        DecidedLater(run[i - 1], run[i], steps[..i], i - 1, maxRetries);
      }
    }
  }

  /** A settled step decides for good. */
  lemma SettledForever(run: seq<Life>, steps: seq<Step>, maxRetries: int, i: nat, k: nat, now: int)
    requires Run(run, steps, maxRetries) && k < i < |run|
    ensures SettledAt(steps, k, Outcome.Success, now) ==> run[i].status == Completed && run[i].completedAt == Some(now)
    ensures SettledAt(steps, k, Interrupted, now) ==> run[i].status == Cancelled && run[i].completedAt == Some(now)
    ensures FailedForGood(steps, k, maxRetries, now) ==> run[i].status == Failed && run[i].completedAt == Some(now)
  {
    RunOk(run, steps, maxRetries, k);
    CountersCount(run, steps, maxRetries, k);
    if SettledAt(steps, k, Outcome.Success, now) || SettledAt(steps, k, Interrupted, now)
        || FailedForGood(steps, k, maxRetries, now) {
      TerminalForever(run, steps, maxRetries, k + 1, i);
    }
  }

  /** A task is completed exactly when an attempt succeeded, cancelled exactly when one was interrupted, and failed
      exactly when one timed out or raised with no retries left; its completion time is that of this step. */
  lemma OutcomeDecides(run: seq<Life>, steps: seq<Step>, maxRetries: int, i: nat, at: int)
    requires Run(run, steps, maxRetries) && i < |run|
    ensures run[i].status == Completed && run[i].completedAt == Some(at) <==>
            exists k: nat :: k < i && SettledAt(steps, k, Outcome.Success, at)
    ensures run[i].status == Cancelled && run[i].completedAt == Some(at) <==>
            exists k: nat :: k < i && SettledAt(steps, k, Interrupted, at)
    ensures run[i].status == Failed && run[i].completedAt == Some(at) <==>
            exists k: nat :: k < i && FailedForGood(steps, k, maxRetries, at)
  {
    hide FailedForGood;
    RunDecided(run, steps, maxRetries, i);
    SettledLater(steps, i, maxRetries);
    InPrefix(steps, i, maxRetries);
    forall k: nat | k < i
      ensures SettledAt(steps, k, Outcome.Success, at) ==> run[i].status == Completed && run[i].completedAt == Some(at)
      ensures SettledAt(steps, k, Interrupted, at) ==> run[i].status == Cancelled && run[i].completedAt == Some(at)
      ensures FailedForGood(steps, k, maxRetries, at) ==> run[i].status == Failed && run[i].completedAt == Some(at)
    {
      SettledForever(run, steps, maxRetries, i, k, at);
    }
  }

  lemma InPrefix(steps: seq<Step>, i: nat, maxRetries: int)
    ensures i <= |steps| ==> forall k: nat, outcome, now :: SettledAt(steps[..i], k, outcome, now) ==> k < i
    ensures i <= |steps| ==> forall k: nat, now :: FailedForGood(steps[..i], k, maxRetries, now) ==> k < i
  {
  }

  /** The start time shown is that of the attempt begun last, and a waiting task shows none. */
  lemma {:induction false} StartTimes(run: seq<Life>, steps: seq<Step>, maxRetries: int, i: nat)
    requires Run(run, steps, maxRetries) && i < |run|
    ensures run[i].startedAt.None? <==> run[i].status.Pending?
    ensures run[i].startedAt.Some? ==> exists k: nat ::
              k < i && steps[k] == Begin(run[i].startedAt.value) && forall j :: k < j < i ==> !steps[j].Begin?
  {
    if i > 0 {
      StartTimes(run, steps, maxRetries, i - 1);
      RunOk(run, steps, maxRetries, i - 1);
      if steps[i - 1].Begin? {
        assert steps[i - 1] == Begin(run[i].startedAt.value);
      } else if run[i].startedAt.Some? {
        var k: nat :| k < i - 1 && steps[k] == Begin(run[i - 1].startedAt.value)
          && forall j :: k < j < i - 1 ==> !steps[j].Begin?;
        assert steps[k] == Begin(run[i].startedAt.value);
      }
    }
  }

  function Perform(t: Life, steps: seq<Step>): Life
    decreases |steps|
  {
    if steps == [] then t else Perform(Stepped(t, steps[0]), steps[1..])
  }

  ghost predicate Possible(t: Life, steps: seq<Step>)
    decreases |steps|
  {
    steps != [] ==> Enabled(t, steps[0]) && Possible(Stepped(t, steps[0]), steps[1..])
  }

  /** An attempt from its start to the end of its `try`. */
  function Attempt(outcome: Outcome, now: int): seq<Step> {
    [Begin(now), Enter, Settle(outcome, now)]
  }

  lemma {:induction false} InTurn(t: Life, a: seq<Step>, b: seq<Step>)
    requires Possible(t, a) && Possible(Perform(t, a), b)
    ensures Possible(t, a + b) && Perform(t, a + b) == Perform(Perform(t, a), b)
    decreases |a|
  {
    if a == [] {
      assert a + b == b;
    } else {
      InTurn(Stepped(t, a[0]), a[1..], b);
      assert (a + b)[0] == a[0] && (a + b)[1..] == a[1..] + b;
    }
  }

  lemma AttemptIsPossible(t: Life, outcome: Outcome, now: int)
    requires t.phase.Queued?
    ensures Possible(t, Attempt(outcome, now))
    ensures Perform(t, Attempt(outcome, now)) ==
            var working := t.(status := Running, startedAt := Some(now), attempts := t.attempts + 1, phase := Working);
            Settling(working, outcome, now)
  {
    var steps := Attempt(outcome, now);
    var t1 := Stepped(t, steps[0]);
    var t2 := Stepped(t1, steps[1]);
    assert steps[1..][0] == Enter && steps[1..][1..] == [Settle(outcome, now)];
    var last := [Settle(outcome, now)];
    assert Possible(t2, last) && Perform(t2, last) == Settling(t2, outcome, now) by { assert last[1..] == []; }
    assert Possible(t1, steps[1..]) && Perform(t1, steps[1..]) == Settling(t2, outcome, now);
  }

  /** The bound on attempts is reached: a task whose attempts all fail makes one more than its retries, and can end in
      any way after any number of failures up to that. */
  lemma {:induction false} AttemptsAreMade(t: Life, failures: nat, outcome: Outcome, now: int)
    returns (steps: seq<Step>)
    requires LifeOk(t) && t.phase.Queued? && t.retryCount + failures <= t.maxRetries
    ensures Possible(t, steps)
    ensures Perform(t, steps).attempts == t.attempts + failures + 1
    ensures outcome.Success? ==> Perform(t, steps).status == Completed
    ensures outcome.Interrupted? ==> Perform(t, steps).status == Cancelled
    ensures outcome.TimedOut? || outcome.Errored? ==>
              Perform(t, steps).status == if t.retryCount + failures == t.maxRetries then Failed else Pending
    decreases failures
  {
    if failures == 0 {
      steps := Attempt(outcome, now);
      AttemptIsPossible(t, outcome, now);
    } else {
      AttemptIsPossible(t, TimedOut, now);
      var t1 := Perform(t, Attempt(TimedOut, now));
      assert t1.phase.Retrying? && [Retry][1..] == [];
      assert Possible(t1, [Retry]) && Perform(t1, [Retry]) == Stepped(t1, Retry);
      var t2 := Stepped(t1, Retry);
      var rest := AttemptsAreMade(t2, failures - 1, outcome, now);
      InTurn(t1, [Retry], rest);
      InTurn(t, Attempt(TimedOut, now), [Retry] + rest);
      steps := Attempt(TimedOut, now) + ([Retry] + rest);
    }
  }

  class BackgroundTask {
    var status: Status
    var retryCount: nat
    const maxRetries: nat
    var startedAt: Option<int>
    var completedAt: Option<int>
    ghost var phase: Phase
    ghost var attempts: nat
    ghost var doneEvents: nat

    ghost function Value(): Life
      reads this
    {
      Life(status, retryCount, maxRetries, startedAt, completedAt, phase, attempts, doneEvents)
    }

    ghost predicate Valid()
      reads this
    {
      LifeOk(Value())
    }

    constructor (maxRetries: int)
      ensures Valid() && Value() == Submitted(maxRetries)
    {
      this.maxRetries := if maxRetries >= 0 then maxRetries else 0;
      status, retryCount, startedAt, completedAt := Pending, 0, None, None;
      phase, attempts, doneEvents := Queued, 0, 0;
    }

    method BeginAttempt(now: int)
      requires Valid() && Enabled(Value(), Begin(now))
      modifies this
      ensures Valid() && Value() == Stepped(old(Value()), Begin(now))
    {
      StepKeepsLife(Value(), Begin(now));
      status, startedAt := Running, Some(now);
      attempts, phase := attempts + 1, Starting;
    }

    method EnterAttempt()
      requires Valid() && Enabled(Value(), Enter)
      modifies this`phase
      ensures Valid() && Value() == Stepped(old(Value()), Enter)
    {
      phase := Working;
    }

    /** The end of the attempt's `try`, up to the first await of its `finally`. */
    method SettleAttempt(outcome: Outcome, now: int) returns (retrying: bool)
      requires Valid() && Enabled(Value(), Settle(outcome, now))
      modifies this
      ensures Valid() && Value() == Stepped(old(Value()), Settle(outcome, now))
      ensures retrying <==> (outcome.TimedOut? || outcome.Errored?) && old(retryCount) < maxRetries
      ensures retrying <==> status.Pending?
      ensures outcome.Success? ==> status == Completed && completedAt == Some(now)
      ensures outcome.Interrupted? ==> status == Cancelled && completedAt == Some(now)
      ensures !retrying && (outcome.TimedOut? || outcome.Errored?) ==> status == Failed && completedAt == Some(now)
    {
      StepKeepsLife(Value(), Settle(outcome, now));
      retrying := false;
      match outcome {
        case Success => status := Completed;
        case Interrupted => status := Cancelled;
        case _ =>
          retryCount := retryCount + 1;
          if retryCount <= maxRetries {
            status, startedAt, retrying := Pending, None, true;
          } else {
            status := Failed;
          }
      }
      if retrying {
        phase := Retrying;
      } else {
        completedAt := Some(now);
        phase := Settled;
      }
    }

    /** The last segment of the coroutine starts the next attempt only for a retry. */
    method EndAttempt() returns (again: bool)
      requires Valid() && (phase.Retrying? || phase.Announced?)
      modifies this`phase
      ensures Valid() && again == old(phase).Retrying?
      ensures Value() == Stepped(old(Value()), if again then Retry else Finish)
    {
      StepKeepsLife(Value(), if phase.Retrying? then Retry else Finish);
      again := status == Pending;
      phase := if again then Queued else Over;
    }

    method PublishDone()
      requires Valid() && Enabled(Value(), Announce)
      modifies this`phase, this`doneEvents
      ensures Valid() && Value() == Stepped(old(Value()), Announce)
    {
      StepKeepsLife(Value(), Announce);
      doneEvents, phase := doneEvents + 1, Announced;
    }
  }

  // ---------------------------------------------------------------- tasks restored from the database

  /** A stored status, None when it is not one of the known ones; a missing or unreadable time is 0. */
  datatype Record = Record(id: string, status: Option<Status>, completed: int)

  datatype Entry = Entry(status: Status, completedAt: Option<int>)

  function FromRecord(record: Record, now: int): Entry {
    var status := if record.status.Some? then record.status.value else Failed;
    if status.Pending? || status.Running? then Entry(Failed, Some(now))
    else Entry(status, if record.completed == 0 then None else Some(record.completed))
  }

  /** A restored task is never pending or running: a final status is kept, an interrupted or unknown one counts as
      failed.  It carries a completion time exactly when it was
      interrupted by the restart or its record has a readable one: a finished record without it, or one
      with an unknown status, is final without a completion time. */
  lemma RestoredCompletion(record: Record, now: int)
    ensures record.status in {Some(Completed), Some(Failed), Some(Cancelled)} ==>
              FromRecord(record, now).status == record.status.value
    ensures record.status in {Some(Pending), Some(Running), None} ==> FromRecord(record, now).status == Failed
    ensures record.status in {Some(Pending), Some(Running)} ==> FromRecord(record, now).completedAt == Some(now)
    ensures record.status !in {Some(Pending), Some(Running)} && record.completed != 0 ==>
              FromRecord(record, now).completedAt == Some(record.completed)
    ensures FromRecord(record, now).completedAt.Some? <==>
            record.status == Some(Pending) || record.status == Some(Running) || record.completed != 0
  {
  }

  /** Such a task: an unknown status and no completion time. */
  lemma RestoredWithoutCompletion(now: int)
    ensures FromRecord(Record("task", None, 0), now) == Entry(Failed, None)
  {
  }

  // ---------------------------------------------------------------- bounded history

  /** A Python dict: its keys in insertion order, and its entries. */
  datatype Tasks = Tasks(order: seq<string>, entries: map<string, Entry>)

  ghost predicate TasksOk(t: Tasks) {
    Distinct(t.order) && forall id :: id in t.order <==> id in t.entries
  }

  predicate Finished(t: Tasks, id: string) {
    id in t.entries && Terminal(t.entries[id].status)
  }

  function FinishTime(t: Tasks, id: string): int {
    if id in t.entries && t.entries[id].completedAt.Some? then t.entries[id].completedAt.value else 0
  }

  function ByTime(t: Tasks): (string, string) -> bool {
    (a, b) => FinishTime(t, a) < FinishTime(t, b)
  }

  function IsFinished(t: Tasks): string -> bool {
    id => Finished(t, id)
  }

  /** The finished tasks, earliest first. */
  function Aged(t: Tasks): seq<string> {
    SortBy(Filter(t.order, IsFinished(t)), ByTime(t))
  }

  function NotIn(ids: seq<string>): string -> bool {
    id => id !in ids
  }

  function Without(t: Tasks, evicted: seq<string>): Tasks {
    Tasks(Filter(t.order, NotIn(evicted)), map id | id in t.entries && id !in evicted :: t.entries[id])
  }

  function Evicted(t: Tasks): seq<string> {
    if |Aged(t)| <= MAX_COMPLETED_TASKS then [] else Aged(t)[..|Aged(t)| - MAX_COMPLETED_TASKS]
  }

  function Trimmed(t: Tasks): Tasks {
    Without(t, Evicted(t))
  }

  lemma {:induction false} FilterOrder(xs: seq<string>, p: string -> bool, a: string, b: string)
    requires Precedes(Filter(xs, p), a, b)
    ensures Precedes(xs, a, b)
  {
    var r := Filter(xs, p);
    if xs != [] {
      var rest := Filter(xs[1..], p);
      LaterPrecedes(xs, a, b);
      var i, j :| 0 <= i < j < |r| && r[i] == a && r[j] == b;
      if p(xs[0]) {
        assert r[j] == rest[j - 1] && rest[j - 1] in rest;
        if i > 0 {
          assert rest[i - 1] == a;
          FilterOrder(xs[1..], p, a, b);
        }
      } else {
        assert r == rest;
        FilterOrder(xs[1..], p, a, b);
      }
    }
  }

  lemma SortedDistinct(xs: seq<string>, less: (string, string) -> bool)
    requires Distinct(xs)
    ensures Distinct(SortBy(xs, less))
  {
    var r := SortBy(xs, less);
    DistinctOnce(xs);
    forall i, j | 0 <= i < j < |r| ensures r[i] != r[j] {
      if r[i] == r[j] {
        TwiceInMultiset(r, i, j);
      }
    }
  }

  lemma {:induction false} DistinctOnce(xs: seq<string>)
    requires Distinct(xs)
    ensures forall x :: multiset(xs)[x] <= 1
  {
    if xs != [] {
      DistinctOnce(xs[1..]);
      assert xs == [xs[0]] + xs[1..];
      assert xs[0] !in xs[1..];
    }
  }

  lemma TwiceInMultiset(r: seq<string>, i: nat, j: nat)
    requires i < j < |r| && r[i] == r[j]
    ensures multiset(r)[r[i]] >= 2
  {
    assert r == r[..j] + r[j..];
    assert r[i] in r[..j] && r[j] in r[j..];
    assert multiset(r) == multiset(r[..j]) + multiset(r[j..]);
  }

  /** The tasks that are kept. */
  function KeptFinished(t: Tasks): seq<string> {
    Aged(t)[|Evicted(t)|..]
  }

  lemma AgedIsFinished(t: Tasks)
    requires TasksOk(t)
    ensures Distinct(Aged(t)) && forall id :: id in Aged(t) <==> Finished(t, id)
  {
    hide SortBy, Filter;
    var finished := Filter(t.order, IsFinished(t));
    FilterDistinct(t.order, IsFinished(t));
    SortedDistinct(finished, ByTime(t));
    forall id ensures id in Aged(t) <==> Finished(t, id) {
      FilterMembers(t.order, IsFinished(t), id);
      SortMembers(finished, ByTime(t), id);
    }
  }

  lemma FilterMembers(xs: seq<string>, p: string -> bool, x: string)
    ensures x in Filter(xs, p) <==> x in xs && p(x)
  {
  }

  lemma AgedIsStable(t: Tasks, i: nat, j: nat)
    requires i < j < |Aged(t)|
    ensures StablyBefore(t.order, ByTime(t), Aged(t)[i], Aged(t)[j])
  {
    hide SortBy, Filter, Precedes;
    var finished := Filter(t.order, IsFinished(t));
    SortIsStable(finished, ByTime(t), i, j);
    if Precedes(finished, Aged(t)[i], Aged(t)[j]) {
      FilterOrder(t.order, IsFinished(t), Aged(t)[i], Aged(t)[j]);
    }
  }

  lemma EvictedParts(t: Tasks)
    requires Distinct(Aged(t))
    ensures Distinct(KeptFinished(t)) && |KeptFinished(t)| == Min(MAX_COMPLETED_TASKS, |Aged(t)|)
    ensures forall id :: id in Aged(t) <==> id in Evicted(t) || id in KeptFinished(t)
    ensures forall id :: id in Evicted(t) ==> id !in KeptFinished(t)
  {
    hide Aged;
    assert Aged(t) == Evicted(t) + KeptFinished(t);
  }

  lemma EvictedBefore(t: Tasks, a: string, b: string)
    requires a in Evicted(t) && b in KeptFinished(t)
    ensures StablyBefore(t.order, ByTime(t), a, b)
  {
    hide Aged, StablyBefore;
    var n := |Evicted(t)|;
    var i :| 0 <= i < n && Evicted(t)[i] == a;
    var j :| 0 <= j < |KeptFinished(t)| && KeptFinished(t)[j] == b;
    assert Aged(t)[i] == a && Aged(t)[n + j] == b;
    AgedIsStable(t, i, n + j);
  }

  lemma TrimKeepsWhich(t: Tasks)
    requires TasksOk(t)
    ensures forall id :: id in t.entries && !Terminal(t.entries[id].status) ==>
        id in Trimmed(t).entries && Trimmed(t).entries[id] == t.entries[id]
    ensures forall id :: id in Trimmed(t).entries && Finished(t, id) <==> id in KeptFinished(t)
    ensures Distinct(KeptFinished(t)) && |KeptFinished(t)| == Min(100, |Aged(t)|)
  {
    hide Aged;
    AgedIsFinished(t);
    EvictedParts(t);
    hide Evicted, KeptFinished;
  }

  lemma EvictedAreOlder(t: Tasks, a: string, b: string)
    requires TasksOk(t) && a in Evicted(t) && b in KeptFinished(t)
    ensures a in t.entries && b in t.entries
    ensures OlderThan(t.entries[a].completedAt, t.entries[b].completedAt)
        || (SameAge(t.entries[a].completedAt, t.entries[b].completedAt) && Precedes(t.order, a, b))
  {
    hide Aged, Evicted, KeptFinished, Precedes, StablyBefore, OlderThan, SameAge;
    AgedIsFinished(t);
    EvictedParts(t);
    EvictedBefore(t, a, b);
    StablyByTime(t, a, b);
  }

  /** Trimming keeps every pending and running task, and of the finished ones the hundred newest: each
      evicted one finished before each kept one, or at the same time and was added earlier.  The rest stay in
      their order. */
  lemma TrimKeepsNewest(t: Tasks)
    requires TasksOk(t)
    ensures forall id :: id in t.entries && !Terminal(t.entries[id].status) ==>
        id in Trimmed(t).entries && Trimmed(t).entries[id] == t.entries[id]
    ensures forall id :: id in Trimmed(t).entries && Finished(t, id) <==> id in KeptFinished(t)
    ensures Distinct(KeptFinished(t)) && |KeptFinished(t)| == Min(100, |Aged(t)|)
    ensures forall a, b :: a in Evicted(t) && b in KeptFinished(t) ==>
        a in t.entries && b in t.entries
        && (OlderThan(t.entries[a].completedAt, t.entries[b].completedAt)
            || (SameAge(t.entries[a].completedAt, t.entries[b].completedAt) && Precedes(t.order, a, b)))
    ensures forall a, b :: Precedes(Trimmed(t).order, a, b) ==> Precedes(t.order, a, b)
  {
    hide *;
    TrimKeepsWhich(t);
    forall a, b | a in Evicted(t) && b in KeptFinished(t)
      ensures a in t.entries && b in t.entries
        && (OlderThan(t.entries[a].completedAt, t.entries[b].completedAt)
            || (SameAge(t.entries[a].completedAt, t.entries[b].completedAt) && Precedes(t.order, a, b)))
    {
      EvictedAreOlder(t, a, b);
    }
    TrimKeepsOrder(t);
  }

  /** Completion times compare by value, a missing one counting as zero. */
  predicate OlderThan(a: Option<int>, b: Option<int>) {
    match (a, b)
    case (Some(x), Some(y)) => x < y
    case (Some(x), None) => x < 0
    case (None, Some(y)) => 0 < y
    case (None, None) => false
  }

  predicate SameAge(a: Option<int>, b: Option<int>) {
    a == b || (a == None && b == Some(0)) || (a == Some(0) && b == None)
  }

  lemma TrimKeepsPending(t: Tasks)
    requires TasksOk(t)
    ensures forall id :: id in t.entries && !Terminal(t.entries[id].status) ==>
        id in Trimmed(t).entries && Trimmed(t).entries[id] == t.entries[id]
  {
    hide *;
    TrimKeepsWhich(t);
  }

  lemma StablyByTime(t: Tasks, a: string, b: string)
    requires a in t.entries && b in t.entries && StablyBefore(t.order, ByTime(t), a, b)
    ensures OlderThan(t.entries[a].completedAt, t.entries[b].completedAt)
        || (SameAge(t.entries[a].completedAt, t.entries[b].completedAt) && Precedes(t.order, a, b))
  {
    hide Precedes;
  }

  /** Trimming keeps the order in which tasks were added. */
  lemma TrimKeepsOrder(t: Tasks)
    ensures forall a, b :: Precedes(Trimmed(t).order, a, b) ==> Precedes(t.order, a, b)
  {
    hide Evicted, Precedes;
    forall a, b | Precedes(Trimmed(t).order, a, b) ensures Precedes(t.order, a, b) {
      FilterOrder(t.order, NotIn(Evicted(t)), a, b);
    }
  }

  lemma {:induction false} FilterLast(xs: seq<string>, p: string -> bool)
    requires xs != [] && p(xs[|xs| - 1])
    ensures Filter(xs, p) != [] && Filter(xs, p)[|Filter(xs, p)| - 1] == xs[|xs| - 1]
  {
    if |xs| > 1 {
      FilterLast(xs[1..], p);
    }
  }

  lemma TrimKeepsLast(t: Tasks)
    requires TasksOk(t) && t.order != [] && !Finished(t, t.order[|t.order| - 1])
    ensures Trimmed(t).order != [] && Trimmed(t).order[|Trimmed(t).order| - 1] == t.order[|t.order| - 1]
  {
    hide Aged, Evicted, Filter;
    AgedIsFinished(t);
    EvictedParts(t);
    FilterLast(t.order, NotIn(Evicted(t)));
  }

  lemma TrimKeepsOk(t: Tasks)
    requires TasksOk(t)
    ensures TasksOk(Trimmed(t))
  {
    FilterDistinct(t.order, NotIn(Evicted(t)));
    hide Evicted;
  }

  function Pop(t: Tasks, id: string): Tasks {
    Tasks(Filter(t.order, NotIn([id])), t.entries - {id})
  }

  lemma {:induction false} FilterTwice(xs: seq<string>, p: string -> bool, q: string -> bool, both: string -> bool)
    requires forall x :: both(x) <==> p(x) && q(x)
    ensures Filter(Filter(xs, p), q) == Filter(xs, both)
  {
    if xs != [] {
      FilterTwice(xs[1..], p, q, both);
      var once := Filter(xs, p);
      if p(xs[0]) {
        assert once[0] == xs[0] && once[1..] == Filter(xs[1..], p);
        assert Filter(once, q) == (if q(xs[0]) then [xs[0]] else []) + Filter(once[1..], q);
      } else {
        assert once == Filter(xs[1..], p);
        assert Filter(xs, both) == Filter(xs[1..], both);
      }
    }
  }

  /** Popping one more task after the others is popping them all. */
  lemma WithoutStep(t: Tasks, xs: seq<string>, k: nat)
    requires k < |xs|
    ensures Pop(Without(t, xs[..k]), xs[k]) == Without(t, xs[..k + 1])
  {
    hide Filter;
    PrefixStep(xs, k);
    FilterTwice(t.order, NotIn(xs[..k]), NotIn([xs[k]]), NotIn(xs[..k + 1]));
    var a, b := Pop(Without(t, xs[..k]), xs[k]).entries, Without(t, xs[..k + 1]).entries;
    assert a.Keys == b.Keys;
    assert a == b;
  }

  lemma {:induction false} FilterAll(xs: seq<string>, p: string -> bool)
    requires forall x :: x in xs ==> p(x)
    ensures Filter(xs, p) == xs
  {
    if xs != [] {
      FilterAll(xs[1..], p);
    }
  }

  lemma WithoutNothing(t: Tasks)
    ensures Without(t, []) == t
  {
    FilterAll(t.order, NotIn([]));
    assert Without(t, []).entries == t.entries;
  }

  ghost function FinishedIds(t: Tasks): set<string> {
    set id | id in t.entries && Terminal(t.entries[id].status)
  }

  lemma {:induction false} MembersBound(xs: seq<string>, ids: set<string>)
    requires forall id :: id in ids ==> id in xs
    ensures |ids| <= |xs|
  {
    if xs == [] {
      assert ids == {};
    } else {
      MembersBound(xs[1..], ids - {xs[0]});
    }
  }

  /** At most a hundred finished tasks are left. */
  lemma TrimBounds(t: Tasks)
    requires TasksOk(t)
    ensures |FinishedIds(Trimmed(t))| <= 100
  {
    hide Aged, Evicted, KeptFinished;
    TrimKeepsNewest(t);
    forall id | id in FinishedIds(Trimmed(t)) ensures id in KeptFinished(t) {
    }
    MembersBound(KeptFinished(t), FinishedIds(Trimmed(t)));
  }

  function Merged(a: Tasks, b: Tasks): Tasks {
    Tasks(a.order + b.order, a.entries + b.entries)
  }

  lemma MergeOk(a: Tasks, b: Tasks)
    requires TasksOk(a) && TasksOk(b) && a.entries.Keys !! b.entries.Keys
    ensures TasksOk(Merged(a, b))
  {
    var order := a.order + b.order;
    assert forall i :: 0 <= i < |a.order| ==> a.order[i] in a.order;
    assert forall i :: 0 <= i < |b.order| ==> b.order[i] in b.order;
    forall i, j | 0 <= i < j < |order| ensures order[i] != order[j] {
      if i < |a.order| && j >= |a.order| {
        assert order[i] in a.entries.Keys && order[j] in b.entries.Keys;
      }
    }
  }

  /** Trimming keeps entries as they are. */
  lemma TrimKeepsEntries(t: Tasks)
    requires TasksOk(t)
    ensures forall id :: id in Trimmed(t).entries ==> id in t.entries && Trimmed(t).entries[id] == t.entries[id]
  {
    hide Aged, Evicted;
  }

  // ---------------------------------------------------------------- event queues

  /** The last `n` elements. */
  function Newest<T>(xs: seq<T>, n: nat): seq<T> {
    if |xs| <= n then xs else xs[|xs| - n..]
  }

  /** A subscriber's bounded queue; `published` and `seen` observe all events put into it, and how many of
      them came no later than the last one delivered. */
  class EventQueue {
    var items: seq<string>
    ghost var published: seq<string>
    ghost var seen: nat

    /** The queue holds the newest events not yet delivered, in order, up to its bound. */
    ghost predicate Valid()
      reads this
    {
      seen <= |published| && items == Newest(published[seen..], TASK_EVENT_QUEUE_SIZE)
    }

    constructor ()
      ensures Valid() && published == [] && seen == 0
    {
      items, published, seen := [], [], 0;
    }

    /** A full queue drops its oldest event. */
    method Put(payload: string)
      requires Valid()
      modifies this
      ensures Valid() && published == old(published) + [payload] && seen == old(seen)
      ensures items == if |published| - seen <= 100 then published[seen..] else published[|published| - 100..]
    {
      assert (published + [payload])[seen..] == published[seen..] + [payload];
      published := published + [payload];
      if |items| == TASK_EVENT_QUEUE_SIZE {
        items := items[1..];
      }
      items := items + [payload];
    }

    method Get() returns (payload: string)
      requires Valid() && items != []
      modifies this
      ensures Valid() && published == old(published) && old(seen) < seen <= |published|
      ensures payload == published[seen - 1] && items == old(items)[1..]
      ensures seen == Max(old(seen), |published| - 100) + 1
    {
      payload := items[0];
      seen := |published| - |items| + 1;
      items := items[1..];
    }
  }

  // ---------------------------------------------------------------- the manager

  class BackgroundTaskManager {
    var tasks: Tasks
    var subscribers: map<string, set<EventQueue>>

    ghost predicate Valid()
      reads this
    {
      TasksOk(tasks)
    }

    constructor ()
      ensures Valid() && tasks == Tasks([], map[]) && subscribers == map[]
    {
      tasks, subscribers := Tasks([], map[]), map[];
    }

    /** Every subscriber of the thread is given the event, and nobody else. */
    method PublishEvent(threadId: string, payload: string)
      requires threadId in subscribers ==> forall q :: q in subscribers[threadId] ==> q.Valid()
      modifies if threadId in subscribers then subscribers[threadId] else {}
      ensures threadId != "" && threadId in subscribers ==> forall q :: q in subscribers[threadId] ==>
                q.Valid() && q.published == old(q.published) + [payload] && q.seen == old(q.seen)
      ensures threadId == "" && threadId in subscribers ==> forall q :: q in subscribers[threadId] ==> unchanged(q)
    {
      if threadId == "" || threadId !in subscribers {
        return;
      }
      var queues := subscribers[threadId];
      var rest := queues;
      while rest != {}
        invariant rest <= queues
        invariant forall q :: q in queues ==> q.Valid()
        invariant forall q :: q in rest ==> q.published == old(q.published) && q.seen == old(q.seen)
        invariant forall q :: q in queues - rest ==>
            q.published == old(q.published) + [payload] && q.seen == old(q.seen)
      {
        var q :| q in rest;
        q.Put(payload);
        rest := rest - {q};
      }
    }

    method TrimCompleted()
      requires Valid()
      modifies this`tasks
      ensures Valid() && tasks == Trimmed(old(tasks))
    {
      hide Aged, TasksOk, Without;
      ghost var before := tasks;
      TrimKeepsOk(tasks);
      WithoutNothing(tasks);
      var completed := Aged(tasks);
      if |completed| <= MAX_COMPLETED_TASKS {
        return;
      }
      var excess := |completed| - MAX_COMPLETED_TASKS;
      for k := 0 to excess
        invariant tasks == Without(before, completed[..k])
      {
        WithoutStep(before, completed, k);
        tasks := Pop(tasks, completed[k]);
      }
    }

    method Submit(id: string)
      requires Valid() && id !in tasks.entries
      modifies this`tasks
      ensures Valid() && tasks == Trimmed(Merged(old(tasks), Tasks([id], map[id := Entry(Pending, None)])))
      ensures id in tasks.entries && tasks.entries[id] == Entry(Pending, None)
      ensures tasks.order != [] && tasks.order[|tasks.order| - 1] == id
    {
      hide Trimmed;
      MergeOk(tasks, Tasks([id], map[id := Entry(Pending, None)]));
      tasks := Merged(tasks, Tasks([id], map[id := Entry(Pending, None)]));
      TrimKeepsPending(tasks);
      TrimKeepsLast(tasks);
      TrimCompleted();
    }

    /** Restarting: stored tasks join the ones in memory, which they never replace, and none of them is
        left pending or running. */
    method Restore(records: seq<Record>, clock: nat -> int) returns (ghost added: Tasks)
      requires Valid()
      modifies this`tasks
      ensures ReadFrom(added, old(tasks).entries.Keys, records, clock)
      ensures tasks == Trimmed(Merged(old(tasks), added))
      ensures Valid() && |FinishedIds(tasks)| <= 100
      ensures forall id :: id in old(tasks).entries && !Terminal(old(tasks).entries[id].status) ==> id in tasks.entries
      ensures forall id :: id in tasks.entries && id in old(tasks).entries ==>
          tasks.entries[id] == old(tasks).entries[id]
      ensures forall id :: id in tasks.entries && id !in old(tasks).entries ==>
                Terminal(tasks.entries[id].status) && RestoredFrom(records, clock, id, tasks.entries[id])
    {
      hide Trimmed, FinishedIds, RestoredFrom, Recorded;
      var read := ReadRecords(tasks.entries.Keys, records, clock);
      added := read;
      forall id | id in added.entries ensures Terminal(added.entries[id].status) {
        RestoredIsFinal(records, clock, id, added.entries[id]);
      }
      MergeOk(tasks, added);
      tasks := Merged(tasks, read);
      TrimKeepsPending(tasks);
      TrimKeepsEntries(tasks);
      TrimBounds(tasks);
      TrimCompleted();
    }
  }

  /** The last record of the task gave the entry. */
  ghost predicate RestoredFrom(records: seq<Record>, clock: nat -> int, id: string, entry: Entry) {
    exists i: nat :: LastRecord(records, id, i) && entry == FromRecord(records[i], clock(i))
  }

  predicate LastRecord(records: seq<Record>, id: string, i: nat) {
    i < |records| && records[i].id == id && forall k :: i < k < |records| ==> records[k].id != id
  }

  predicate Recorded(records: seq<Record>, id: string) {
    exists i :: 0 <= i < |records| && records[i].id == id
  }

  /** The tasks read from records: exactly those not in memory, each from its last record. */
  ghost predicate ReadFrom(added: Tasks, known: set<string>, records: seq<Record>, clock: nat -> int) {
    && TasksOk(added)
    && (forall id :: id in added.entries <==> id !in known && Recorded(records, id))
    && (forall id :: id in added.entries ==> RestoredFrom(records, clock, id, added.entries[id]))
  }

  lemma RestoredIsFinal(records: seq<Record>, clock: nat -> int, id: string, entry: Entry)
    requires RestoredFrom(records, clock, id, entry)
    ensures Terminal(entry.status)
  {
  }

  lemma ReadStep(added: Tasks, added': Tasks, known: set<string>, records: seq<Record>, clock: nat -> int, i: nat)
    requires i < |records| && ReadFrom(added, known, records[..i], clock) && TasksOk(added')
    requires added'.entries == if records[i].id in known then added.entries
                               else added.entries[records[i].id := FromRecord(records[i], clock(i))]
    ensures ReadFrom(added', known, records[..i + 1], clock)
  {
    var before, now := records[..i], records[..i + 1];
    assert now == before + [records[i]];
    forall id ensures Recorded(now, id) <==> Recorded(before, id) || id == records[i].id {
      if Recorded(before, id) {
        var k :| 0 <= k < |before| && before[k].id == id;
        assert now[k].id == id;
      }
      if id == records[i].id {
        assert now[i].id == id;
      }
    }
    forall id | id in added'.entries ensures RestoredFrom(now, clock, id, added'.entries[id]) {
      if id == records[i].id {
        assert LastRecord(now, id, i);
      } else {
        var k: nat :| LastRecord(before, id, k) && added.entries[id] == FromRecord(before[k], clock(k));
        assert LastRecord(now, id, k);
      }
    }
  }

  method ReadRecords(known: set<string>, records: seq<Record>, clock: nat -> int) returns (added: Tasks)
    ensures ReadFrom(added, known, records, clock)
  {
    added := Tasks([], map[]);
    for i := 0 to |records|
      invariant ReadFrom(added, known, records[..i], clock)
    {
      hide ReadFrom, FromRecord;
      var record := records[i];
      ghost var before := added;
      if record.id !in known {
        added := Recalled(added, record.id, FromRecord(record, clock(i)));
      }
      assert TasksOk(added) by { ReadTasksOk(before, known, records[..i], clock, record.id); }
      ReadStep(before, added, known, records, clock, i);
    }
    assert records[..|records|] == records;
  }

  /** Assignment in a Python dict. */
  function Recalled(t: Tasks, id: string, entry: Entry): Tasks {
    Tasks(if id in t.entries then t.order else t.order + [id], t.entries[id := entry])
  }

  lemma ReadTasksOk(t: Tasks, known: set<string>, records: seq<Record>, clock: nat -> int, id: string)
    requires ReadFrom(t, known, records, clock)
    ensures TasksOk(t) && forall entry :: TasksOk(Recalled(t, id, entry))
  {
    forall entry ensures TasksOk(Recalled(t, id, entry)) {
      if id !in t.entries {
        assert forall i :: 0 <= i < |t.order| ==> t.order[i] in t.order;
      }
    }
  }
}
