/** A run in which a call starts, its conversation is deleted, and the same call starts again. */
module BrowserRestart {
  import opened Prelude
  import opened ThreadIds
  import opened BrowserModel
  import opened BrowserProgress

  // ---------------------------------------------------------------- runs from a state

  ghost predicate Chain(states: seq<State>) {
    states != [] && forall i :: 0 < i < |states| ==> Next(states[i - 1], states[i])
  }

  /** Some steps lead from `b` to `s`. */
  ghost predicate Leads(b: State, s: State) {
    exists states :: Chain(states) && states[0] == b && states[|states| - 1] == s
  }

  lemma LeadsItself(b: State)
    ensures Leads(b, b)
  {
    assert Chain([b]) && [b][0] == b && [b][|[b]| - 1] == b;
  }

  lemma LeadsNext(b: State, s: State, s': State)
    requires Leads(b, s) && Next(s, s')
    ensures Leads(b, s')
  {
    hide Next;
    var states :| Chain(states) && states[0] == b && states[|states| - 1] == s;
    var longer := states + [s'];
    forall i | 0 < i < |longer| ensures Next(longer[i - 1], longer[i]) {
      assert longer[i - 1] == states[i - 1];
    }
    assert longer[0] == states[0];
    assert Chain(longer) && longer[|longer| - 1] == s';
  }

  ghost predicate Reachable(s: State) {
    exists run :: Run(run) && run[|run| - 1] == s
  }

  lemma LeadsFromInit(b: State, s: State)
    requires Init(b) && Leads(b, s)
    ensures Reachable(s)
  {
    hide Next, Init;
    var states :| Chain(states) && states[0] == b && states[|states| - 1] == s;
    assert Run(states);
  }

  // ---------------------------------------------------------------- one operation alone

  /** The state with `op` as its only operation. */
  function Alone(base: State, op: Op): State {
    base.(ops := map[0 := op])
  }

  lemma AloneSpawns(b: State, base: State, task: Task)
    requires base.ops == map[] && Leads(b, base) && !task.CloseOne? && !task.Finishing?
    ensures Leads(b, Alone(base, Initial(task)))
  {
    hide Initial;
    assert Spawn(base, Alone(base, Initial(task)), 0, task);
    LeadsNext(b, base, Alone(base, Initial(task)));
  }

  lemma AloneGranted(b: State, base: State, op: Op)
    requires Leads(b, Alone(base, op)) && Wants(op).Some? && !Holds(op, Wants(op).value)
    ensures Leads(b, Alone(base, Granted(op)))
  {
    hide Wants, Holds, Granted;
    var s := Alone(base, op);
    assert Grant(s, Alone(base, Granted(op)), 0);
    LeadsNext(b, s, Alone(base, Granted(op)));
  }

  lemma AloneWorks(b: State, base: State, op: Op, ch: Choice, next: Op, e: Effect, after: State)
    requires Leads(b, Alone(base, op)) && Plan(Alone(base, op), 0, op, ch) == Some(Move(Some(next), e))
    requires ApplyEffect(Alone(base, next), e) == Alone(after, next)
    ensures Leads(b, Alone(after, next))
  {
    hide Plan, ApplyEffect;
    var s, m := Alone(base, op), Move(Some(next), e);
    assert s.ops[0 := next] == map[0 := next];
    assert Perform(s, 0, m) == Alone(after, next);
    assert Work(s, Alone(after, next), 0, ch);
    LeadsNext(b, s, Alone(after, next));
  }

  /** A segment without an effect. */
  lemma AloneGoes(b: State, base: State, op: Op, ch: Choice, pc: Pc)
    requires Leads(b, Alone(base, op)) && Plan(Alone(base, op), 0, op, ch) == Some(Go(op, pc))
    ensures Leads(b, Alone(base, op.(pc := pc)))
  {
    hide Plan;
    AloneWorks(b, base, op, ch, op.(pc := pc), Nothing, base);
  }

  // ---------------------------------------------------------------- a call starts

  /** Nothing in memory, and nothing about the call in the database. */
  ghost predicate Blank(s: State, c: Call) {
    s == Crash(s) && c !in s.journal && c.id != "" && c.thread !in s.bindings && !PendingHandoff(s, c.thread)
  }

  const ROW := Row("f", Running)

  function Starter(c: Call, pc: Pc): Op {
    Op(Execute(c.thread, c.id, RunTool, "f"), pc)
  }

  function Launched(s: State, c: Call): State {
    s.(sessions := map[c.thread := 0], objs := map[0 := Session(c.thread, Private(c.thread), false, false)])
  }

  function Started(s: State, c: Call): State {
    s.(journal := s.journal[c := ROW], started := s.started + multiset{LifeOf(s, c)})
  }

  lemma CallEnters(b: State, s: State, c: Call)
    requires Leads(b, s) && Blank(s, c)
    ensures Leads(b, Alone(s, Starter(c, Expiring(Ensuring(Private(c.thread))))))
  {
    hide Leads;
    AloneSpawns(b, s, Starter(c, AtThread).task);
    AloneGranted(b, s, Starter(c, AtThread));
    AloneGoes(b, s, Starter(c, Entering), ANY, InThread);
    AloneGoes(b, s, Starter(c, InThread), ANY, AtCall);
    AloneGranted(b, s, Starter(c, AtCall));
    AloneGoes(b, s, Starter(c, Replay), ANY, Expiring(Ensuring(Private(c.thread))));
  }

  lemma CallLooks(b: State, s: State, c: Call)
    requires Blank(s, c) && Leads(b, Alone(s, Starter(c, Expiring(Ensuring(Private(c.thread))))))
    ensures Leads(b, Alone(s, Starter(c, AtProfile(Private(c.thread)))))
  {
    hide Leads;
    var p := Private(c.thread);
    NothingExpires(s, c.thread);
    AloneWorks(b, s, Starter(c, Expiring(Ensuring(p))), ANY, Starter(c, Looking(p)), ExpireRows(c.thread, {}), s);
    assert !PendingHandoff(Alone(s, Starter(c, Looking(p))), c.thread);
    AloneGoes(b, s, Starter(c, Looking(p)), ANY, AtProfile(p));
  }

  lemma CallHasProfile(b: State, s: State, c: Call)
    requires s.sessions == map[] && Leads(b, Alone(s, Starter(c, AtProfile(Private(c.thread)))))
    ensures Leads(b, Alone(s, Starter(c, Launching(Private(c.thread)))))
  {
    hide Leads, Matches;
    var p := Private(c.thread);
    AloneGranted(b, s, Starter(c, AtProfile(p)));
    AloneGoes(b, s, Starter(c, HaveProfile(p)), ANY, Launching(p));
  }

  lemma CallInserts(b: State, s: State, c: Call)
    requires Blank(s, c) && Leads(b, Alone(s, Starter(c, AtProfile(Private(c.thread)))))
    ensures Leads(b, Alone(Launched(s, c), Starter(c, AtSession(0, ToUse))))
  {
    hide Leads, PendingHandoff, Matches, Busy;
    var p := Private(c.thread);
    CallHasProfile(b, s, c);
    AloneWorks(b, s, Starter(c, Launching(p)), ANY, Starter(c, AtSession(0, ToUse)), Insert(c.thread, 0, p),
        Launched(s, c));
  }

  lemma CallLaunches(b: State, s: State, c: Call)
    requires Leads(b, s) && Blank(s, c)
    ensures Leads(b, Alone(Launched(s, c), Starter(c, AtSession(0, ToUse))))
  {
    hide *;
    CallEnters(b, s, c);
    CallLooks(b, s, c);
    CallInserts(b, s, c);
  }

  lemma NothingExpires(s: State, t: string)
    ensures Expired(s.journal, t, {}) == s.journal
  {
  }

  lemma CallArms(b: State, s: State, c: Call)
    requires Leads(b, Alone(Launched(s, c), Starter(c, AtSession(0, ToUse))))
    ensures Leads(b, Alone(Launched(s, c), Starter(c, Arming(0))))
  {
    hide Leads;
    var base := Launched(s, c);
    AloneGranted(b, base, Starter(c, AtSession(0, ToUse)));
    AloneGoes(b, base, Starter(c, HaveSession(0, ToUse)), ANY, Arming(0));
  }

  function Armed(s: State, c: Call): State {
    Launched(s, c).(journal := s.journal[c := ROW])
  }

  lemma CallRecords(b: State, s: State, c: Call)
    requires c !in s.journal && Leads(b, Alone(Launched(s, c), Starter(c, Arming(0))))
    ensures Leads(b, Alone(Armed(s, c), Starter(c, Ready(0))))
  {
    hide Leads;
    AloneWorks(b, Launched(s, c), Starter(c, Arming(0)), ANY, Starter(c, Ready(0)), WriteRow(c, ROW), Armed(s, c));
  }

  lemma CallRuns(b: State, s: State, c: Call)
    requires Leads(b, Alone(Armed(s, c), Starter(c, Ready(0))))
    ensures Leads(b, Crash(Started(s, c)))
  {
    hide Leads, Era;
    var going := Armed(s, c).(started := s.started + multiset{LifeOf(s, c)});
    AloneWorks(b, Armed(s, c), Starter(c, Ready(0)), ANY, Starter(c, Driving(0)), Start(c), going);
    LeadsNext(b, Alone(going, Starter(c, Driving(0))), Crash(Started(s, c)));
  }

  /** Then the driver is started, and the journal says so. */
  lemma CallStarts(b: State, s: State, c: Call)
    requires Leads(b, s) && Blank(s, c)
    ensures Leads(b, Crash(Started(s, c)))
  {
    hide *;
    CallLaunches(b, s, c);
    CallArms(b, s, c);
    BlankHasNoRow(s, c);
    CallRecords(b, s, c);
    CallRuns(b, s, c);
  }

  lemma BlankHasNoRow(s: State, c: Call)
    requires Blank(s, c)
    ensures c !in s.journal
  {
  }

  // ---------------------------------------------------------------- its conversation is deleted

  function Deleter(t: string, pc: Pc): Op {
    Op(DeleteThread(t), pc)
  }

  lemma DeletionMarks(b: State, s: State, t: string)
    requires Leads(b, s) && s == Crash(s)
    ensures Leads(b, Alone(s.(deleting := {t}), Deleter(t, Marked)))
  {
    hide Leads, Matches;
    AloneSpawns(b, s, DeleteThread(t));
    AloneGranted(b, s, Deleter(t, AtDelete));
    AloneWorks(b, s, Deleter(t, Marking), ANY, Deleter(t, Marked), Mark(t), s.(deleting := {t}));
  }

  lemma DeletionLocks(b: State, s: State, t: string)
    requires s.sessions == map[] && Leads(b, Alone(s, Deleter(t, Marked)))
    ensures Leads(b, Alone(s, Deleter(t, Locking([t], 1))))
  {
    hide Leads;
    AloneProperTargets(s, t);
    AloneGoes(b, s, Deleter(t, Marked), ANY.(targets := [t]), Locking([t], 0));
    AloneGranted(b, s, Deleter(t, Locking([t], 0)));
  }

  lemma AloneProperTargets(s: State, t: string)
    requires s.sessions == map[]
    ensures ProperTargets(Alone(s, Deleter(t, Marked)), t, [t])
  {
  }

  lemma NobodyToClose(s: State, t: string)
    requires s.sessions == map[]
    ensures ProperKids(s, 0, t, map[])
  {
  }

  lemma DeletionGathers(b: State, s: State, t: string)
    requires s.sessions == map[] && Leads(b, Alone(s, Deleter(t, Locking([t], 1))))
    ensures Leads(b, Alone(s, Deleter(t, Gathering([t]))))
  {
    hide Leads, Matches, Era, PendingHandoff, Busy, IsOpen, Gathered, ProperTargets;
    NobodyToClose(Alone(s, Deleter(t, Locking([t], 1))), t);
    hide ProperKids;
    AloneWorks(b, s, Deleter(t, Locking([t], 1)), ANY, Deleter(t, Gathering([t])), SpawnAll(map[]), s);
  }

  function Deleted(s: State, t: string): State {
    s.(journal := Kept(s.journal, t), bindings := map x | x in s.bindings && !Matches(x, t) ::
        s.bindings[x], deletions := [t] + s.deletions)
  }

  lemma DeletionPurges(b: State, s: State, t: string)
    requires s.tickets == map[] && Leads(b, Alone(s, Deleter(t, Gathering([t]))))
    ensures Leads(b, Alone(s, Deleter(t, Purging([t]))))
  {
    hide Leads, Matches;
    AloneWorks(b, s, Deleter(t, Gathering([t])), ANY, Deleter(t, Purging([t])), DropTickets(t), s);
  }

  lemma DeletionCommits(b: State, s: State, t: string)
    requires Leads(b, Alone(s, Deleter(t, Purging([t]))))
    ensures Leads(b, Crash(Deleted(s, t)))
  {
    hide Leads, Matches, Kept;
    AloneWorks(b, s, Deleter(t, Purging([t])), ANY, Deleter(t, Unmarking([t])), Commit(t), Deleted(s, t));
    LeadsNext(b, Alone(Deleted(s, t), Deleter(t, Unmarking([t]))), Crash(Deleted(s, t)));
  }

  lemma DeletionRuns(b: State, s: State, t: string)
    requires Leads(b, s) && s == Crash(s)
    ensures Leads(b, Deleted(s, t)) && Deleted(s, t) == Crash(Deleted(s, t))
  {
    hide Leads, Matches, Kept;
    var marked := s.(deleting := {t});
    DeletionMarks(b, s, t);
    DeletionLocks(b, marked, t);
    DeletionGathers(b, marked, t);
    DeletionPurges(b, marked, t);
    DeletionCommits(b, marked, t);
    assert Crash(Deleted(marked, t)) == Deleted(s, t);
  }

  // ---------------------------------------------------------------- and it starts again

  lemma DeletedIsBlank(s: State, c: Call)
    requires s == Crash(s) && c.id != ""
    ensures Blank(Deleted(s, c.thread), c)
  {
    assert Matches(c.thread, c.thread);
  }

  /** After the deletion of its conversation a call really starts a second time: such a state is reachable, and
      its two starts belong to one call. */
  lemma StartsAgainAfterDeletion(c: Call)
    requires c.id != ""
    ensures exists s ::
        Reachable(s) && s.started == multiset{CallLife(c, 0), CallLife(c, 1)} && s.deletions == [c.thread]
  {
    hide Leads, Blank, Crash, Matches;
    var s0 := State(map[], map[], map[], {}, map[], false, map[], map[], {}, multiset{}, {}, []);
    StartBlank(s0, c);
    CallStarts(s0, s0, c);
    var s1 := Crash(Started(s0, c));
    CrashTwice(Started(s0, c));
    DeletionRuns(s0, s1, c.thread);
    var s2 := Deleted(s1, c.thread);
    DeletedIsBlank(s1, c);
    CallStarts(s0, s2, c);
    var s3 := Crash(Started(s2, c));
    CrashKeepsLog(Started(s0, c));
    CrashKeepsLog(Started(s2, c));
    OneDeletion(c.thread);
    LeadsFromInit(s0, s3);
  }

  lemma StartBlank(s: State, c: Call)
    requires s == State(map[], map[], map[], {}, map[], false, map[], map[], {}, multiset{}, {}, []) && c.id != ""
    ensures Init(s) && Leads(s, s) && Blank(s, c)
  {
    LeadsItself(s);
  }

  lemma CrashTwice(s: State)
    ensures Crash(Crash(s)) == Crash(s)
  {
  }

  lemma CrashKeepsLog(s: State)
    ensures Crash(s).started == s.started && Crash(s).deletions == s.deletions
  {
  }

  lemma OneDeletion(t: string)
    ensures Era([], t) == 0 && Era([t], t) == 1
  {
    assert [t][1..] == [];
    assert Matches(t, t);
  }
}
