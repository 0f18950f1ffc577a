/** Every kind of request can be served: from any quiet state in which nothing stands in its way. */
module BrowserServes {
  import opened Prelude
  import opened ThreadIds
  import opened BrowserModel
  import opened BrowserProgress
  import opened BrowserRestart

  /** No operation under way, no mark, no shutdown. */
  predicate Quiet(s: State) {
    s.ops == map[] && s.deleting == {} && !s.closing
  }

  /** The conversation has session `g`, which is open and under the agent's control. */
  predicate HasOpen(s: State, t: string, g: nat) {
    t in s.sessions && s.sessions[t] == g && g in s.objs && !s.objs[g].closed && !s.objs[g].human
  }

  lemma AloneEnds(b: State, s: State, op: Op, ch: Choice, e: Effect, after: State)
    requires s.ops == map[] && Leads(b, Alone(s, op)) && Plan(Alone(s, op), 0, op, ch) == Some(Move(None, e))
    requires ApplyEffect(s, e) == after
    ensures Leads(b, after)
  {
    hide Plan, ApplyEffect, Leads;
    var before, m := Alone(s, op), Move(None, e);
    assert before.ops - {0} == map[] && before.(ops := map[]) == s;
    assert Perform(before, 0, m) == after;
    assert Work(before, after, 0, ch);
    LeadsNext(b, before, after);
  }

  lemma AloneAborts(b: State, s: State, op: Op)
    requires s.ops == map[] && Leads(b, Alone(s, op)) && Abort(op, ANY) == END
    ensures Leads(b, s)
  {
    hide Abort, Leads;
    var before := Alone(s, op);
    assert before.ops - {0} == map[] && before.(ops := map[]) == s;
    assert Aborts(before, s, 0, ANY);
    LeadsNext(b, before, s);
  }

  // ---------------------------------------------------------------- the way in

  lemma ComesIn(b: State, s: State, task: Task)
    requires Leads(b, s) && Quiet(s) && ThreadOf(task).Some? && !task.Release?
    ensures Leads(b, Alone(s, Op(task, InThread)))
  {
    hide Leads;
    AloneSpawns(b, s, task);
    AloneGranted(b, s, Op(task, AtThread));
    AloneGoes(b, s, Op(task, Entering), ANY, InThread);
  }

  lemma CallComesIn(b: State, s: State, task: Task)
    requires Leads(b, s) && Quiet(s) && HasCall(task)
    ensures Leads(b, Alone(s, Op(task, if task.Handoff? then Expiring(First) else Replay)))
  {
    hide Leads;
    ComesIn(b, s, task);
    AloneGoes(b, s, Op(task, InThread), ANY, AtCall);
    AloneGranted(b, s, Op(task, AtCall));
  }

  /** Nothing expires. */
  lemma PassesExpiry(b: State, s: State, task: Task, stage: Stage)
    requires ThreadOf(task).Some? && Leads(b, Alone(s, Op(task, Expiring(stage))))
    ensures Leads(b, Alone(s, Op(task, AfterExpiry(Op(task, Expiring(stage)), stage))))
  {
    hide Leads;
    var op := Op(task, Expiring(stage));
    NothingExpires(s, ThreadOf(task).value);
    AloneWorks(b, s, op, ANY, op.(pc := AfterExpiry(op, stage)), ExpireRows(ThreadOf(task).value, {}), s);
  }

  // ---------------------------------------------------------------- opening a session

  /** Nothing stands in the way of a session for the conversation. */
  ghost predicate MayLaunch(s: State, t: string, g: nat) {
    && t !in s.sessions && g !in s.objs
    && (forall c :: c in s.journal && c.thread == t ==> !s.journal[c].status.HandedOff?)
    && (forall u :: u in s.sessions && s.sessions[u] in s.objs ==> s.objs[s.sessions[u]].profile != ProfileOf(s, t))
    && (ProfileOf(s, t).Named? ==> ProfileOf(s, t).id in s.profiles)
  }

  function WithSession(s: State, t: string, g: nat): State {
    s.(sessions := s.sessions[t := g], objs := s.objs[g := Session(t, ProfileOf(s, t), false, false)])
  }

  lemma Launches(b: State, s: State, task: Task, t: string, g: nat)
    requires ThreadOf(task) == Some(t) && !task.Select? && MayLaunch(s, t, g)
    requires Leads(b, Alone(s, Op(task, Looking(ProfileOf(s, t)))))
    ensures Leads(b, Alone(s, Op(task, Launching(ProfileOf(s, t)))))
  {
    hide Leads;
    var p := ProfileOf(s, t);
    LooksFree(s, Op(task, Looking(p)), t, g);
    AloneGoes(b, s, Op(task, Looking(p)), ANY, AtProfile(p));
    AloneGranted(b, s, Op(task, AtProfile(p)));
    BusyIgnoresOps(s, Op(task, HaveProfile(p)), p);
    AloneGoes(b, s, Op(task, HaveProfile(p)), ANY, Launching(p));
  }

  lemma LooksFree(s: State, op: Op, t: string, g: nat)
    requires MayLaunch(s, t, g)
    ensures !PendingHandoff(Alone(s, op), t) && t !in Alone(s, op).sessions
  {
    hide Busy, ProfileOf;
  }

  lemma BusyIgnoresOps(s: State, op: Op, p: Profile)
    ensures Busy(Alone(s, op), p) == Busy(s, p)
  {
  }

  /** A conversation gets a session. */
  lemma EnsureServes(b: State, s: State, t: string, g: nat)
    requires Leads(b, s) && Quiet(s) && MayLaunch(s, t, g)
    ensures Leads(b, WithSession(s, t, g)) && HasOpen(WithSession(s, t, g), t, g)
  {
    hide Leads, PendingHandoff, Busy;
    var task, p := Ensure(t), ProfileOf(s, t);
    ComesIn(b, s, task);
    AloneGoes(b, s, Op(task, InThread), ANY, Expiring(Ensuring(p)));
    PassesExpiry(b, s, task, Ensuring(p));
    Launches(b, s, task, t, g);
    AloneEnds(b, s, Op(task, Launching(p)), ANY.(number := g), Insert(t, g, p), WithSession(s, t, g));
  }

  // ---------------------------------------------------------------- actions

  /** A call with this id has an open session in hand. */
  lemma GetsSession(b: State, s: State, task: Task, g: nat)
    requires HasCall(task) && HasOpen(s, task.thread, g)
    requires Leads(b, Alone(s, Op(task, Expiring(Ensuring(ProfileOf(s, task.thread))))))
    ensures Leads(b, Alone(s, Op(task, HaveSession(g, ToUse))))
  {
    hide Leads;
    var p := ProfileOf(s, task.thread);
    PassesExpiry(b, s, task, Ensuring(p));
    AloneGoes(b, s, Op(task, Looking(p)), ANY, AtSession(g, ToUse));
    AloneGranted(b, s, Op(task, AtSession(g, ToUse)));
  }

  function WithRow(s: State, c: Call, row: Row): State {
    s.(journal := s.journal[c := row])
  }

  function Running_(s: State, c: Call, fp: string): State {
    WithRow(s, c, Row(fp, Running)).(started := s.started + multiset{LifeOf(s, c)})
  }

  lemma ActionHasSession(b: State, s: State, c: Call, fp: string, g: nat)
    requires Leads(b, s) && Quiet(s) && c !in s.journal && c.id != "" && HasOpen(s, c.thread, g)
    ensures Leads(b, Alone(s, Op(Execute(c.thread, c.id, RunTool, fp), HaveSession(g, ToUse))))
  {
    hide Leads, Era, PendingHandoff, Busy, Matches, Expired, Kept;
    var task := Execute(c.thread, c.id, RunTool, fp);
    CallComesIn(b, s, task);
    AloneGoes(b, s, Op(task, Replay), ANY, Expiring(Ensuring(ProfileOf(s, c.thread))));
    GetsSession(b, s, task, g);
  }

  lemma ActionGetsReady(b: State, s: State, c: Call, fp: string, g: nat)
    requires Leads(b, s) && Quiet(s) && c !in s.journal && c.id != "" && HasOpen(s, c.thread, g)
    ensures Leads(b, Alone(WithRow(s, c, Row(fp, Running)), Op(Execute(c.thread, c.id, RunTool, fp), Ready(g))))
  {
    hide Leads, Era, PendingHandoff, Busy, Matches, Expired, Kept;
    var task := Execute(c.thread, c.id, RunTool, fp);
    ActionHasSession(b, s, c, fp, g);
    AloneGoes(b, s, Op(task, HaveSession(g, ToUse)), ANY, Arming(g));
    AloneWorks(b, s, Op(task, Arming(g)), ANY, Op(task, Ready(g)), WriteRow(c, Row(fp, Running)),
        WithRow(s, c, Row(fp, Running)));
  }

  lemma ActionDrives(b: State, s: State, c: Call, fp: string, g: nat)
    requires Leads(b, s) && Quiet(s) && c !in s.journal && c.id != "" && HasOpen(s, c.thread, g)
    ensures Leads(b, Alone(Running_(s, c, fp), Op(Execute(c.thread, c.id, RunTool, fp), Driving(g))))
  {
    hide Leads, Era;
    var task := Execute(c.thread, c.id, RunTool, fp);
    ActionGetsReady(b, s, c, fp, g);
    AloneWorks(b, WithRow(s, c, Row(fp, Running)), Op(task, Ready(g)), ANY, Op(task, Driving(g)), Start(c),
        Running_(s, c, fp));
  }

  function Done(s: State, c: Call, fp: string, r: string): State {
    s.(journal := s.journal[c := Row(fp, Completed(r))], answers := s.answers + {(LifeOf(s, c), r)})
  }

  /** An action runs, and its call is completed with whatever the driver returns. */
  lemma ActionServes(b: State, s: State, c: Call, fp: string, g: nat, r: string)
    requires Leads(b, s) && Quiet(s) && c !in s.journal && c.id != "" && HasOpen(s, c.thread, g)
    ensures Leads(b, Done(Running_(s, c, fp), c, fp, r))
  {
    hide Leads, Era, PendingHandoff, Busy, Matches, Expired, Kept, IsOpen;
    var task, s' := Execute(c.thread, c.id, RunTool, fp), Running_(s, c, fp);
    ActionDrives(b, s, c, fp, g);
    AloneGoes(b, s', Op(task, Driving(g)), ANY.(flag := true, text := r), Driven(g, r));
    assert s'.journal[c := Row(fp, Completed(r))] == Recorded(s'.journal, c, Row(fp, Completed(r)));
    AloneEnds(b, s', Op(task, Driven(g, r)), ANY, Complete(c, Row(fp, Completed(r))), Done(s', c, fp, r));
  }

  function Without(s: State, t: string, g: nat): State {
    s.(sessions := map u | u in s.sessions && s.sessions[u] != g :: s.sessions[u],
       objs := if g in s.objs then s.objs[g := s.objs[g].(closed := true)] else s.objs)
  }

  /** When it times out or is cancelled its session is closed, and its outcome stays unknown. */
  lemma TimeoutCloses(b: State, s: State, c: Call, fp: string, g: nat)
    requires Leads(b, s) && Quiet(s) && c !in s.journal && c.id != "" && HasOpen(s, c.thread, g)
    ensures Leads(b, Without(Running_(s, c, fp), c.thread, g))
  {
    hide Leads, Era;
    var task, s' := Execute(c.thread, c.id, RunTool, fp), Running_(s, c, fp);
    ActionDrives(b, s, c, fp, g);
    var closed := s'.(objs := s'.objs[g := s'.objs[g].(closed := true)]);
    AloneWorks(b, s', Op(task, Driving(g)), ANY, Op(task, Disposing(g, ToFail)), MarkClosed(g), closed);
    AloneEnds(b, closed, Op(task, Disposing(g, ToFail)), ANY, Pop(g), Without(s', c.thread, g));
  }

  // ---------------------------------------------------------------- closing

  lemma Disposes(b: State, s: State, task: Task, g: nat, why: Why)
    requires g in s.objs && (why.ToClose? || why.ToExpire?) && (task.Execute? ==> IsOpen(s, g) || why.ToExpire?)
    requires Leads(b, Alone(s, Op(task, AtSession(g, why))))
    ensures Leads(b, Alone(s.(objs := s.objs[g := s.objs[g].(closed := true)]), Op(task, Disposing(g, why))))
  {
    hide Leads;
    AloneGranted(b, s, Op(task, AtSession(g, why)));
    AloneWorks(b, s, Op(task, HaveSession(g, why)), ANY, Op(task, Disposing(g, why)), MarkClosed(g),
        s.(objs := s.objs[g := s.objs[g].(closed := true)]));
  }

  /** A session is closed on request. */
  lemma CloseServes(b: State, s: State, t: string, g: nat)
    requires Leads(b, s) && Quiet(s) && HasOpen(s, t, g)
    ensures Leads(b, Without(s, t, g)) && t !in Without(s, t, g).sessions
  {
    hide Leads;
    ComesIn(b, s, Close(t));
    AloneGoes(b, s, Op(Close(t), InThread), ANY, Closing);
    AloneGoes(b, s, Op(Close(t), Closing), ANY, AtSession(g, ToClose));
    Disposes(b, s, Close(t), g, ToClose);
    AloneEnds(b, s.(objs := s.objs[g := s.objs[g].(closed := true)]), Op(Close(t), Disposing(g, ToClose)), ANY, Pop(g),
        Without(s, t, g));
  }

  /** Releasing a conversation closes its session too, even while it is being deleted or the service shuts down. */
  lemma ReleaseServes(b: State, s: State, t: string, g: nat)
    requires Leads(b, s) && s.ops == map[] && HasOpen(s, t, g)
    ensures Leads(b, Without(s, t, g))
  {
    hide Leads;
    AloneSpawns(b, s, Release(t));
    AloneGranted(b, s, Op(Release(t), AtThread));
    AloneGoes(b, s, Op(Release(t), Entering), ANY, Closing);
    AloneGoes(b, s, Op(Release(t), Closing), ANY, AtSession(g, ToClose));
    Disposes(b, s, Release(t), g, ToClose);
    AloneEnds(b, s.(objs := s.objs[g := s.objs[g].(closed := true)]), Op(Release(t), Disposing(g, ToClose)), ANY,
        Pop(g), Without(s, t, g));
  }

  lemma CloseActionCloses(b: State, s: State, c: Call, fp: string, g: nat)
    requires Leads(b, s) && Quiet(s) && c !in s.journal && c.id != "" && HasOpen(s, c.thread, g)
    ensures Leads(b, Alone(WithRow(s, c, Row(fp, Running)), Op(Execute(c.thread, c.id, CloseTool, fp),
        AtSession(g, ToClose))))
  {
    hide Leads;
    var task, s' := Execute(c.thread, c.id, CloseTool, fp), WithRow(s, c, Row(fp, Running));
    CallComesIn(b, s, task);
    AloneGoes(b, s, Op(task, Replay), ANY, Recording);
    AloneWorks(b, s, Op(task, Recording), ANY, Op(task, Closing), WriteRow(c, Row(fp, Running)), s');
    AloneGoes(b, s', Op(task, Closing), ANY, AtSession(g, ToClose));
  }

  lemma CloseActionEnds(b: State, s: State, c: Call, fp: string)
    requires s.ops == map[] && c in s.journal && s.journal[c] == Row(fp, Running)
    requires Leads(b, Alone(s, Op(Execute(c.thread, c.id, CloseTool, fp), CloseRecord)))
    ensures Leads(b, Done(s, c, fp, "closed"))
  {
    hide Leads, Era;
    assert s.journal[c := Row(fp, Completed("closed"))] == Recorded(s.journal, c, Row(fp, Completed("closed")));
    AloneEnds(b, s, Op(Execute(c.thread, c.id, CloseTool, fp), CloseRecord), ANY,
        Complete(c, Row(fp, Completed("closed"))), Done(s, c, fp, "closed"));
  }

  /** The agent's own close is journaled, closes the session, and is completed as closed. */
  lemma CloseActionServes(b: State, s: State, c: Call, fp: string, g: nat)
    requires Leads(b, s) && Quiet(s) && c !in s.journal && c.id != "" && HasOpen(s, c.thread, g)
    ensures Leads(b, Done(Without(WithRow(s, c, Row(fp, Running)), c.thread, g), c, fp, "closed"))
  {
    hide Leads, Done;
    var task, s' := Execute(c.thread, c.id, CloseTool, fp), WithRow(s, c, Row(fp, Running));
    CloseActionCloses(b, s, c, fp, g);
    Disposes(b, s', task, g, ToClose);
    var closed, after := s'.(objs := s'.objs[g := s'.objs[g].(closed := true)]), Without(s', c.thread, g);
    AloneWorks(b, closed, Op(task, Disposing(g, ToClose)), ANY, Op(task, CloseRecord), Pop(g), after);
    CloseActionEnds(b, after, c, fp);
  }

  /** An idle session is closed by the reaper. */
  lemma ReapServes(b: State, s: State, t: string, g: nat)
    requires Leads(b, s) && Quiet(s) && HasOpen(s, t, g)
    ensures Leads(b, Without(s, t, g))
  {
    hide Leads;
    var task := Visit(t, Reap);
    ComesIn(b, s, task);
    AloneGoes(b, s, Op(task, InThread), ANY, Expiring(Visiting));
    PassesExpiry(b, s, task, Visiting);
    AloneGoes(b, s, Op(task, Visited), ANY.(flag := true), AtSession(g, ToClose));
    Disposes(b, s, task, g, ToClose);
    AloneEnds(b, s.(objs := s.objs[g := s.objs[g].(closed := true)]), Op(task, Disposing(g, ToClose)), ANY, Pop(g),
        Without(s, t, g));
  }

  /** A viewer gets a ticket for an open session. */
  lemma TicketServes(b: State, s: State, t: string, g: nat, token: nat)
    requires Leads(b, s) && Quiet(s) && HasOpen(s, t, g)
    ensures Leads(b, s.(tickets := s.tickets[token := (t, g)]))
  {
    hide Leads;
    var task := Visit(t, Ticket);
    ComesIn(b, s, task);
    AloneGoes(b, s, Op(task, InThread), ANY, Expiring(Visiting));
    PassesExpiry(b, s, task, Visiting);
    AloneEnds(b, s, Op(task, Visited), ANY.(number := token), IssueTicket(token, t, g),
        s.(tickets := s.tickets[token := (t, g)]));
  }

  // ---------------------------------------------------------------- handoffs

  /** The session is in human hands, and the call's row says so. */
  function Offered(s: State, c: Call, fp: string, g: nat): State
    requires g in s.objs
  {
    WithRow(s, c, Row(fp, HandedOff(g))).(objs := s.objs[g := s.objs[g].(human := true)])
  }

  lemma HandoffGetsSession(b: State, s: State, c: Call, fp: string, g: nat)
    requires Leads(b, s) && Quiet(s) && c !in s.journal && c.id != "" && HasOpen(s, c.thread, g)
    ensures Leads(b, Alone(s, Op(Handoff(c.thread, c.id, fp), HaveSession(g, ToUse))))
  {
    hide Leads;
    var task := Handoff(c.thread, c.id, fp);
    CallComesIn(b, s, task);
    PassesExpiry(b, s, task, First);
    AloneGoes(b, s, Op(task, Reading), ANY, Expiring(Ensuring(ProfileOf(s, c.thread))));
    GetsSession(b, s, task, g);
  }

  lemma OfferIsRecorded(b: State, s: State, c: Call, fp: string, g: nat)
    requires g in s.objs && c !in s.journal
    requires Leads(b, Alone(s.(objs := s.objs[g := s.objs[g].(human := true)]),
        Op(Handoff(c.thread, c.id, fp), Offering(g))))
    ensures Leads(b, Alone(Offered(s, c, fp, g), Op(Handoff(c.thread, c.id, fp), Parked(g))))
  {
    hide Leads, Era, PendingHandoff, Busy, Matches, Expired, Kept, IsOpen;
    var task, human := Handoff(c.thread, c.id, fp), s.(objs := s.objs[g := s.objs[g].(human := true)]);
    assert Offered(s, c, fp, g) == human.(journal := Recorded(s.journal, c, Row(fp, HandedOff(g))));
    AloneWorks(b, human, Op(task, Offering(g)), ANY, Op(task, Parked(g)), WriteRow(c, Row(fp, HandedOff(g))),
        Offered(s, c, fp, g));
  }

  /** A handoff gives the session to the user, and waits. */
  lemma HandoffOffers(b: State, s: State, c: Call, fp: string, g: nat)
    requires Leads(b, s) && Quiet(s) && c !in s.journal && c.id != "" && HasOpen(s, c.thread, g)
    ensures Leads(b, Offered(s, c, fp, g))
  {
    hide Leads, Era, PendingHandoff, Busy, Matches, Expired, Kept;
    var task := Handoff(c.thread, c.id, fp);
    HandoffGetsSession(b, s, c, fp, g);
    AloneWorks(b, s, Op(task, HaveSession(g, ToUse)), ANY, Op(task, Offering(g)), SetHuman(g, true),
        s.(objs := s.objs[g := s.objs[g].(human := true)]));
    OfferIsRecorded(b, s, c, fp, g);
    AloneAborts(b, Offered(s, c, fp, g), Op(task, Parked(g)));
  }

  lemma HandoffIsParked(b: State, s: State, c: Call, g: nat)
    requires Leads(b, s) && Quiet(s) && c in s.journal && s.journal[c].status == HandedOff(g) && c.id != ""
    ensures Leads(b, Alone(s, Op(Handoff(c.thread, c.id, s.journal[c].fp), Parked(g))))
  {
    hide Leads, Era, PendingHandoff, Busy, Matches, Expired, Kept, IsOpen;
    var task := Handoff(c.thread, c.id, s.journal[c].fp);
    CallComesIn(b, s, task);
    PassesExpiry(b, s, task, First);
    AloneGoes(b, s, Op(task, Reading), ANY, Parked(g));
  }

  lemma HandoffComesBack(b: State, s: State, c: Call, g: nat, cancel: bool)
    requires Leads(b, s) && Quiet(s) && c in s.journal && s.journal[c].status == HandedOff(g) && c.id != ""
    requires c.thread in s.sessions && s.sessions[c.thread] == g && g in s.objs
    ensures Leads(b, Alone(s.(objs := s.objs[g := s.objs[g].(human := false)]),
        Op(Handoff(c.thread, c.id, s.journal[c].fp), Returning(g, cancel))))
  {
    hide Leads, Era, PendingHandoff, Busy, Matches, Expired, Kept, IsOpen;
    var task := Handoff(c.thread, c.id, s.journal[c].fp);
    HandoffIsParked(b, s, c, g);
    AloneGoes(b, s, Op(task, Parked(g)), ANY.(flag := cancel), AtSession(g, ToReturn(cancel)));
    AloneGranted(b, s, Op(task, AtSession(g, ToReturn(cancel))));
    TakesBack(b, s, task, g, cancel);
  }

  lemma TakesBack(b: State, s: State, task: Task, g: nat, cancel: bool)
    requires g in s.objs && Leads(b, Alone(s, Op(task, HaveSession(g, ToReturn(cancel)))))
    ensures Leads(b, Alone(s.(objs := s.objs[g := s.objs[g].(human := false)]), Op(task, Returning(g, cancel))))
  {
    hide Leads, IsOpen;
    AloneWorks(b, s, Op(task, HaveSession(g, ToReturn(cancel))), ANY, Op(task, Returning(g, cancel)),
        SetHuman(g, false), s.(objs := s.objs[g := s.objs[g].(human := false)]));
  }

  /** The user gives the session back: it is the agent's again, and the handoff is completed with the response. */
  lemma HandoffReturns(b: State, s: State, c: Call, g: nat, r: string)
    requires Leads(b, s) && Quiet(s) && c in s.journal && s.journal[c].status == HandedOff(g) && c.id != ""
    requires c.thread in s.sessions && s.sessions[c.thread] == g && g in s.objs
    ensures Leads(b, Done(s.(objs := s.objs[g := s.objs[g].(human := false)]), c, s.journal[c].fp, r))
  {
    hide Leads, Done, Era, PendingHandoff, Busy, Matches, Expired, Kept, IsOpen;
    var fp := s.journal[c].fp;
    var task, s' := Handoff(c.thread, c.id, fp), s.(objs := s.objs[g := s.objs[g].(human := false)]);
    HandoffComesBack(b, s, c, g, false);
    AloneGoes(b, s', Op(task, Returning(g, false)), ANY.(text := r), HandRecord(r));
    ResponseIsRecorded(b, s', c, fp, r);
  }

  lemma CancelCloses(b: State, s: State, c: Call, fp: string, g: nat, r: string)
    requires g in s.objs && Leads(b, Alone(s, Op(Handoff(c.thread, c.id, fp), Returning(g, true))))
    ensures Leads(b, Alone(Without(s, c.thread, g), Op(Handoff(c.thread, c.id, fp), HandRecord(r))))
  {
    hide Leads, Era, PendingHandoff, Busy, Matches, Expired, Kept, IsOpen;
    var task, why := Handoff(c.thread, c.id, fp), ToReturn(true);
    var closed := s.(objs := s.objs[g := s.objs[g].(closed := true)]);
    AloneWorks(b, s, Op(task, Returning(g, true)), ANY, Op(task, Disposing(g, why)), MarkClosed(g), closed);
    AloneWorks(b, closed, Op(task, Disposing(g, why)), ANY.(text := r), Op(task, HandRecord(r)), Pop(g),
        Without(s, c.thread, g));
  }

  lemma ResponseIsRecorded(b: State, s: State, c: Call, fp: string, r: string)
    requires s.ops == map[] && c in s.journal && s.journal[c].fp == fp
    requires Leads(b, Alone(s, Op(Handoff(c.thread, c.id, fp), HandRecord(r))))
    ensures Leads(b, Done(s, c, fp, r))
  {
    hide Leads, Era, PendingHandoff, Busy, Matches, Expired, Kept, IsOpen;
    assert s.journal[c := Row(fp, Completed(r))] == Recorded(s.journal, c, Row(fp, Completed(r)));
    AloneEnds(b, s, Op(Handoff(c.thread, c.id, fp), HandRecord(r)), ANY, Complete(c, Row(fp, Completed(r))),
        Done(s, c, fp, r));
  }

  /** The user cancels: the session is closed. */
  lemma HandoffCancels(b: State, s: State, c: Call, g: nat, r: string)
    requires Leads(b, s) && Quiet(s) && c in s.journal && s.journal[c].status == HandedOff(g) && c.id != ""
    requires c.thread in s.sessions && s.sessions[c.thread] == g && g in s.objs
    ensures Leads(b, Done(Without(s.(objs := s.objs[g := s.objs[g].(human := false)]), c.thread, g), c,
        s.journal[c].fp, r))
  {
    hide Leads, Done;
    var fp, s' := s.journal[c].fp, s.(objs := s.objs[g := s.objs[g].(human := false)]);
    HandoffComesBack(b, s, c, g, true);
    CancelCloses(b, s', c, fp, g, r);
    ResponseIsRecorded(b, Without(s', c.thread, g), c, fp, r);
  }

  /** A handoff expires when somebody looks: its row is completed as expired, and the session is closed. */
  lemma HandoffExpires(b: State, s: State, c: Call, g: nat)
    requires Leads(b, s) && Quiet(s) && c in s.journal && s.journal[c].status.HandedOff?
    requires c.thread in s.sessions && s.sessions[c.thread] == g && g in s.objs && s.objs[g].human
    ensures exists s' ::
        Leads(b, s') && ExpiredRow(s', c) && s'.journal.Keys == s.journal.Keys && c.thread !in s'.sessions
  {
    hide Leads;
    var t, task := c.thread, Visit(c.thread, Status);
    ComesIn(b, s, task);
    AloneGoes(b, s, Op(task, InThread), ANY, Expiring(Visiting));
    var why, s' := ToExpire(Visiting), s.(journal := Expired(s.journal, t, {c.id}));
    AloneWorks(b, s, Op(task, Expiring(Visiting)), ANY.(flag := true, calls := {c.id}), Op(task, AtSession(g, why)),
        ExpireRows(t, {c.id}), s');
    Disposes(b, s', task, g, why);
    var closed, after := s'.(objs := s'.objs[g := s'.objs[g].(closed := true)]), Without(s', t, g);
    AloneWorks(b, closed, Op(task, Disposing(g, why)), ANY, Op(task, Visited), Pop(g), after);
    AloneAborts(b, after, Op(task, Visited));
    assert ExpiredRow(after, c) && after.journal.Keys == s.journal.Keys && t !in after.sessions;
  }

  predicate ExpiredRow(s: State, c: Call) {
    c in s.journal && s.journal[c].status == Completed("expired")
  }

  // ---------------------------------------------------------------- profiles

  /** A conversation without a session selects an existing profile. */
  lemma SelectServes(b: State, s: State, t: string, p: string)
    requires Leads(b, s) && Quiet(s) && t !in s.sessions && p in s.profiles
    ensures Leads(b, s.(bindings := s.bindings[t := Some(p)]))
  {
    hide Leads, Era, PendingHandoff, Matches, Expired, Kept, IsOpen;
    var task := Select(t, Some(p));
    ComesIn(b, s, task);
    AloneGoes(b, s, Op(task, InThread), ANY, Selecting);
    AloneGoes(b, s, Op(task, Selecting), ANY, AtProfile(Named(p)));
    AloneGranted(b, s, Op(task, AtProfile(Named(p))));
    AloneEnds(b, s, Op(task, HaveProfile(Named(p))), ANY, Bind(t, Some(p)), s.(bindings := s.bindings[t := Some(p)]));
  }

  /** Or none. */
  lemma UnselectServes(b: State, s: State, t: string)
    requires Leads(b, s) && Quiet(s) && t !in s.sessions
    ensures Leads(b, s.(bindings := s.bindings[t := None]))
  {
    hide Leads;
    var task := Select(t, None);
    ComesIn(b, s, task);
    AloneGoes(b, s, Op(task, InThread), ANY, Selecting);
    AloneEnds(b, s, Op(task, Selecting), ANY, Bind(t, None), s.(bindings := s.bindings[t := None]));
  }

  /** A profile that no session has open is deleted. */
  lemma DeleteProfileServes(b: State, s: State, p: string)
    requires Leads(b, s) && Quiet(s) && p in s.profiles
    requires forall u :: u in s.sessions && s.sessions[u] in s.objs ==> s.objs[s.sessions[u]].profile != Named(p)
    ensures Leads(b, ApplyEffect(s, DropProfile(p)))
  {
    hide Leads;
    var task := DeleteProfile(p);
    AloneSpawns(b, s, task);
    AloneGranted(b, s, Op(task, AtProfile(Named(p))));
    BusyIgnoresOps(s, Op(task, HaveProfile(Named(p))), Named(p));
    AloneGoes(b, s, Op(task, HaveProfile(Named(p))), ANY, Removing);
    AloneEnds(b, s, Op(task, Removing), ANY, DropProfile(p), ApplyEffect(s, DropProfile(p)));
  }

  // ---------------------------------------------------------------- who is turned away

  /** When the service shuts down only releases come in. */
  lemma ShutdownAdmitsNobody(s: State, id: nat, op: Op, ch: Choice)
    requires s.closing && op.pc.Entering? && !op.task.Release?
    ensures Plan(s, id, op, ch) == Some(END)
  {
  }

  /** A session that is being closed is not used, and nobody gets a second one meanwhile. */
  lemma ClosedIsNotUsed(s: State, id: nat, op: Op, ch: Choice)
    requires op.pc.Looking? && ThreadOf(op.task).Some? && ThreadOf(op.task).value in s.sessions
    requires var g := s.sessions[ThreadOf(op.task).value]; g !in s.objs || s.objs[g].closed
    ensures Plan(s, id, op, ch) == Some(END)
  {
  }

  /** A call without an id is never journaled: an action and a handoff without one end at their lookup. */
  lemma CallsNeedIds(s: State, id: nat, op: Op, ch: Choice)
    requires HasCall(op.task) && op.task.call == "" && Journaled(op.task) && (op.pc.Replay? || op.pc.Reading?)
    ensures Plan(s, id, op, ch) == Some(END)
  {
  }

  // ---------------------------------------------------------------- when something is cut short

  /** A handoff that could not be recorded gives the session back to the agent. */
  lemma UnrecordedHandoffGivesBack(s: State, s': State, id: nat, ch: Choice)
    requires Aborts(s, s', id, ch) && s.ops[id].pc.Offering? && s.ops[id].pc.gen in s.objs
    ensures var g := s.ops[id].pc.gen;
            && g in s'.objs && s'.objs[g] == s.objs[g].(human := false) && id !in s'.ops && s'.journal == s.journal
  {
  }

  /** A disposal that is cancelled has unregistered its session already, or goes on by itself, or, when the closing of
      the driver fails, leaves it registered and closed. */
  lemma CancelledDisposal(op: Op, g: nat, why: Why, ch: Choice)
    requires op.pc == Disposing(g, why) && !op.task.CloseOne?
    ensures Abort(op, ch) == if ch.number == 0 then Move(None, Pop(g))
                             else if ch.number == 1 then Move(Some(Op(Finishing(g), Unwatched(g))), Nothing)
                             else END
  {
  }

  /** What goes on by itself unregisters the session. */
  lemma FinishingServes(b: State, s: State, g: nat)
    requires s.ops == map[] && Leads(b, Alone(s, Op(Finishing(g), Unwatched(g))))
    ensures Leads(b, s.(sessions := map u | u in s.sessions && s.sessions[u] != g :: s.sessions[u]))
  {
    AloneEnds(b, s, Op(Finishing(g), Unwatched(g)), ANY, Pop(g),
        s.(sessions := map u | u in s.sessions && s.sessions[u] != g :: s.sessions[u]));
  }
}
