/**
 The browser session service as a transition system.

 An operation is one coroutine; `Plan` is its next segment between two awaits, decided from its own
 task and program counter, the shared state, and a `Choice` that stands for everything outside: the
 driver, the database's other contents, time, cancellation, the language-model graph.  A segment
 may be split into several steps, which only adds interleavings.  A crash forgets the memory and keeps
 the database.  The hashes that name invocations, storage directories and arguments are taken to be
 injective.
 */
module BrowserModel {
  import opened Prelude
  import opened ThreadIds
  import opened Ordering

  // ---------------------------------------------------------------- locks

  datatype Profile = Named(id: string) | Private(thread: string)

  datatype Key =
    | DeleteKey(root: string)
    | ThreadKey(thread: string)
    | CallKey(thread: string, call: string)
    | ProfileKey(profile: Profile)
    | SessionKey(gen: nat)

  predicate Matches(candidate: string, thread: string) {
    candidate == thread || thread + SEP <= candidate
  }

  // ---------------------------------------------------------------- operations

  datatype Kind = RunTool | CloseTool | Observe

  datatype Purpose = Status | Ticket | Reap

  datatype Task =
    | Execute(thread: string, call: string, kind: Kind, fp: string)
    | Handoff(thread: string, call: string, fp: string)
    | Ensure(thread: string)
    | Close(thread: string)
    | Visit(thread: string, purpose: Purpose)
    | Select(thread: string, profile: Option<string>)
    | Release(thread: string)
    | DeleteProfile(id: string)
    | DeleteThread(thread: string)
    | CloseOne(gen: nat, parent: nat)
    | Finishing(gen: nat)

  /** Where `_expire_handoffs` was called from; `Ensuring` carries the profile read before. */
  datatype Stage = First | Ensuring(profile: Profile) | Visiting

  /** What a session lock is taken for. */
  datatype Why = ToClose | ToExpire(stage: Stage) | ToUse | ToReturn(cancel: bool) | ToFail

  datatype Pc =
    | AtThread | Entering | InThread
    | AtCall | Replay
    | Recording | Closing | CloseRecord
    | Expiring(stage: Stage)
    | Reading
    | Looking(profile: Profile)
    | Visited
    | AtProfile(profile: Profile) | HaveProfile(profile: Profile) | Launching(profile: Profile)
    | AtSession(gen: nat, why: Why) | HaveSession(gen: nat, why: Why)
    | Disposing(gen: nat, why: Why) | Unwatched(gen: nat)
    | Arming(gen: nat) | Ready(gen: nat) | Driving(gen: nat) | Driven(gen: nat, result: string)
    | Offering(gen: nat) | Parked(gen: nat) | Returning(gen: nat, cancel: bool) | HandRecord(result: string)
    | Selecting
    | Removing
    | AtDelete | Marking | Marked
    | Locking(targets: seq<string>, n: nat)
    | Gathering(targets: seq<string>) | GatherFailed(targets: seq<string>)
    | Purging(targets: seq<string>) | Unmarking(targets: seq<string>)

  datatype Op = Op(task: Task, pc: Pc)

  /** The thread whose scope the operation uses. */
  function ThreadOf(task: Task): Option<string> {
    match task
    case Execute(t, _, _, _) => Some(t)
    case Handoff(t, _, _) => Some(t)
    case Ensure(t) => Some(t)
    case Close(t) => Some(t)
    case Visit(t, _) => Some(t)
    case Select(t, _) => Some(t)
    case Release(t) => Some(t)
    case _ => None
  }

  predicate HasCall(task: Task) {
    task.Execute? || task.Handoff?
  }

  predicate Journaled(task: Task) {
    task.Handoff? || (task.Execute? && !task.kind.Observe?)
  }

  function SeqSet(xs: seq<string>): set<string> {
    set x | x in xs
  }

  /** The thread locks that a deletion holds. */
  function TargetsHeld(pc: Pc): set<string> {
    match pc
    case Locking(targets, n) => if n <= |targets| then SeqSet(targets[..n]) else {}
    case Gathering(targets) => SeqSet(targets)
    case GatherFailed(targets) => SeqSet(targets)
    case Purging(targets) => SeqSet(targets)
    case Unmarking(targets) => SeqSet(targets)
    case _ => {}
  }

  function SessionHeld(pc: Pc): Option<nat> {
    match pc
    case HaveSession(g, _) => Some(g)
    case Disposing(g, _) => Some(g)
    case Arming(g) => Some(g)
    case Ready(g) => Some(g)
    case Driving(g) => Some(g)
    case Driven(g, _) => Some(g)
    case Offering(g) => Some(g)
    case Returning(g, _) => Some(g)
    case _ => None
  }

  /** Whether the operation holds lock `k`. */
  predicate Holds(op: Op, k: Key) {
    match k
    case DeleteKey(root) => op.task.DeleteThread? && Root(op.task.thread) == root && !op.pc.AtDelete?
    case ThreadKey(t) =>
      || (ThreadOf(op.task) == Some(t) && !op.pc.AtThread?)
      || (op.task.DeleteThread? && t in TargetsHeld(op.pc))
    case CallKey(t, c) =>
      HasCall(op.task) && op.task.thread == t && op.task.call == c && !op.pc.AtThread? && !op.pc.Entering?
          && !op.pc.InThread? && !op.pc.AtCall?
    case ProfileKey(p) =>
      || op.pc == HaveProfile(p) || op.pc == Launching(p)
      || (op.task.DeleteProfile? && op.pc.Removing? && p == Named(op.task.id))
    case SessionKey(g) => SessionHeld(op.pc) == Some(g)
  }

  /** The lock that the operation waits for. */
  function Wants(op: Op): Option<Key> {
    match op.pc
    case AtThread => if ThreadOf(op.task).Some? then Some(ThreadKey(ThreadOf(op.task).value)) else None
    case AtCall => if HasCall(op.task) then Some(CallKey(op.task.thread, op.task.call)) else None
    case AtProfile(p) => Some(ProfileKey(p))
    case AtSession(g, _) => Some(SessionKey(g))
    case AtDelete => if op.task.DeleteThread? then Some(DeleteKey(Root(op.task.thread))) else None
    case Locking(targets, n) => if n < |targets| then Some(ThreadKey(targets[n])) else None
    case _ => None
  }

  /** Where the operation goes on once it is given that lock. */
  function Granted(op: Op): Op {
    match op.pc
    case AtThread => op.(pc := Entering)
    case AtCall => op.(pc := if op.task.Handoff? then Expiring(First) else Replay)
    case AtProfile(p) => op.(pc := HaveProfile(p))
    case AtSession(g, why) => op.(pc := HaveSession(g, why))
    case AtDelete => op.(pc := Marking)
    case Locking(targets, n) => op.(pc := Locking(targets, n + 1))
    case _ => op
  }

  function Initial(task: Task): Op {
    match task
    case DeleteProfile(p) => Op(task, AtProfile(Named(p)))
    case DeleteThread(_) => Op(task, AtDelete)
    case CloseOne(g, _) => Op(task, AtSession(g, ToClose))
    case Finishing(g) => Op(task, Unwatched(g))
    case _ => Op(task, AtThread)
  }

  /** The operation passed the scope's check and has not left: it is inside its thread's scope. */
  predicate Inside(op: Op) {
    ThreadOf(op.task).Some? && !op.task.Release? && !op.pc.AtThread? && !op.pc.Entering?
  }

  // ---------------------------------------------------------------- shared state

  datatype Row = Row(fp: string, status: RowStatus)

  datatype RowStatus = Running | Completed(result: string) | HandedOff(gen: nat)

  /** A session object; `human` says that a handoff is pending on it. */
  datatype Session = Session(thread: string, profile: Profile, closed: bool, human: bool)

  datatype Call = Call(thread: string, id: string)

  /** A call together with the number of deletions of its conversation so far. */
  datatype CallLife = CallLife(call: Call, era: nat)

  /** The first six fields are memory, the next three the database; the last three only observe:
      driver runs started, results returned for journaled calls, and deletions committed. */
  datatype State = State(
    ops: map<nat, Op>, sessions: map<string, nat>, objs: map<nat, Session>, deleting: set<string>,
    tickets: map<nat, (string, nat)>, closing: bool,
    journal: map<Call, Row>, bindings: map<string, Option<string>>, profiles: set<string>,
    started: multiset<CallLife>, answers: set<(CallLife, string)>, deletions: seq<string>)

  function Era(deletions: seq<string>, thread: string): nat {
    if deletions == [] then 0
    else (if Matches(thread, deletions[0]) then 1 else 0) + Era(deletions[1..], thread)
  }

  function LifeOf(s: State, c: Call): CallLife {
    CallLife(c, Era(s.deletions, c.thread))
  }

  function ProfileOf(s: State, thread: string): Profile {
    if thread in s.bindings && s.bindings[thread].Some? then Named(s.bindings[thread].value) else Private(thread)
  }

  function IsOpen(s: State, g: nat): bool {
    g in s.objs && !s.objs[g].closed && !s.objs[g].human
  }

  predicate Busy(s: State, p: Profile) {
    exists t :: t in s.sessions && s.sessions[t] in s.objs && s.objs[s.sessions[t]].profile == p
  }

  // ---------------------------------------------------------------- effects

  datatype Effect =
    | Nothing
    | WriteRow(call: Call, row: Row)
    | Complete(call: Call, row: Row)
    | Answer(call: Call, result: string)
    | ExpireRows(thread: string, calls: set<string>)
    | Insert(thread: string, gen: nat, profile: Profile)
    | MarkClosed(gen: nat)
    | SetHuman(gen: nat, human: bool)
    | Pop(gen: nat)
    | Start(call: Call)
    | Bind(thread: string, chosen: Option<string>)
    | DropProfile(id: string)
    | IssueTicket(token: nat, thread: string, gen: nat)
    | DropTickets(thread: string)
    | Mark(thread: string)
    | Unmark(thread: string)
    | SpawnAll(kids: map<nat, Op>)
    | FailParent(parent: nat)
    | Commit(thread: string)

  predicate Expires(journal: map<Call, Row>, thread: string, calls: set<string>, c: Call) {
    c in journal && c.thread == thread && c.id in calls && journal[c].status.HandedOff?
  }

  function Expired(journal: map<Call, Row>, thread: string, calls: set<string>): map<Call, Row> {
    map c | c in journal :: if Expires(journal, thread, calls, c) then journal[c].(status := Completed("expired"))
        else journal[c]
  }

  function Kept(journal: map<Call, Row>, thread: string): map<Call, Row> {
    map c | c in journal && !Matches(c.thread, thread) :: journal[c]
  }

  /** Recording a call that has a row already keeps the row's fingerprint. */
  function Recorded(journal: map<Call, Row>, c: Call, row: Row): map<Call, Row> {
    journal[c := if c in journal then row.(fp := journal[c].fp) else row]
  }

  function WithObj(s: State, g: nat, o: Session): State {
    s.(objs := s.objs[g := o])
  }

  function ApplyEffect(s: State, e: Effect): State {
    match e
    case Nothing => s
    case WriteRow(c, row) => s.(journal := Recorded(s.journal, c, row))
    case Complete(c, row) =>
      s.(journal := Recorded(s.journal, c, row),
         answers := s.answers + (if row.status.Completed? then {(LifeOf(s, c), row.status.result)} else {}))
    case Answer(c, r) => s.(answers := s.answers + {(LifeOf(s, c), r)})
    case ExpireRows(t, calls) => s.(journal := Expired(s.journal, t, calls))
    case Insert(t, g, p) => WithObj(s, g, Session(t, p, false, false)).(sessions := s.sessions[t := g])
    case MarkClosed(g) => if g in s.objs then WithObj(s, g, s.objs[g].(closed := true)) else s
    case SetHuman(g, h) => if g in s.objs then WithObj(s, g, s.objs[g].(human := h)) else s
    case Pop(g) => s.(sessions := map t | t in s.sessions && s.sessions[t] != g :: s.sessions[t])
    case Start(c) => s.(started := s.started + multiset{LifeOf(s, c)})
    case Bind(t, p) => s.(bindings := s.bindings[t := p])
    case DropProfile(p) =>
      s.(profiles := s.profiles - {p},
         bindings := map t | t in s.bindings :: if s.bindings[t] == Some(p) then None else s.bindings[t])
    case IssueTicket(token, t, g) => s.(tickets := s.tickets[token := (t, g)])
    case DropTickets(t) => s.(tickets := map k | k in s.tickets && !Matches(s.tickets[k].0, t) :: s.tickets[k])
    case Mark(t) => s.(deleting := s.deleting + {t})
    case Unmark(t) => s.(deleting := s.deleting - {t})
    case SpawnAll(kids) => s.(ops := kids + s.ops)
    case FailParent(d) =>
      if d in s.ops && s.ops[d].pc.Gathering?
          then s.(ops := s.ops[d := s.ops[d].(pc := GatherFailed(s.ops[d].pc.targets))]) else s
    case Commit(t) =>
      s.(journal := Kept(s.journal, t),
         bindings := map x | x in s.bindings && !Matches(x, t) :: s.bindings[x],
         deletions := [t] + s.deletions)
  }

  // ---------------------------------------------------------------- segments

  /** Everything that a segment's outcome depends on besides the state. */
  datatype Choice = Choice(flag: bool, text: string, number: nat, calls: set<string>, targets: seq<string>,
      kids: map<nat, Op>)

  /** The next operation (None when it ends) and its effect. */
  datatype Move = Move(next: Option<Op>, effect: Effect)

  function Go(op: Op, pc: Pc): Move {
    Move(Some(op.(pc := pc)), Nothing)
  }

  function GoWith(op: Op, pc: Pc, e: Effect): Move {
    Move(Some(op.(pc := pc)), e)
  }

  const END := Move(None, Nothing)

  function CallOf(task: Task): Call
    requires HasCall(task)
  {
    Call(task.thread, task.call)
  }

  /** Entering a thread's scope. */
  function PlanEntering(s: State, op: Op): Move {
    match ThreadOf(op.task)
    case None => END
    case Some(t) =>
      if op.task.Release? then Go(op, Closing)
      else if s.closing || exists target :: target in s.deleting && Matches(t, target) then END
      else Go(op, InThread)
  }

  function PlanInThread(s: State, op: Op): Move {
    match op.task
    case Execute(_, _, _, _) => Go(op, AtCall)
    case Handoff(_, _, _) => Go(op, AtCall)
    case Ensure(t) => Go(op, Expiring(Ensuring(ProfileOf(s, t))))
    case Close(_) => Go(op, Closing)
    case Visit(_, _) => Go(op, Expiring(Visiting))
    case Select(_, _) => Go(op, Selecting)
    case _ => END
  }

  /** The replay check of an action. */
  function PlanReplay(s: State, op: Op): Move {
    if !op.task.Execute? then END
    else
      var c := CallOf(op.task);
      if op.task.kind.Observe? then Go(op, Expiring(Ensuring(ProfileOf(s, op.task.thread))))
      else if op.task.call == "" then END
      else if c in s.journal then
        if s.journal[c].fp != op.task.fp || !s.journal[c].status.Completed? then END
        else Move(None, Answer(c, s.journal[c].status.result))
      else if op.task.kind.CloseTool? then Go(op, Recording)
      else Go(op, Expiring(Ensuring(ProfileOf(s, op.task.thread))))
  }

  /** The replay check of a handoff. */
  function PlanReading(s: State, op: Op): Move {
    if !op.task.Handoff? || op.task.call == "" then END
    else
      var c := CallOf(op.task);
      if c !in s.journal then Go(op, Expiring(Ensuring(ProfileOf(s, op.task.thread))))
      else if s.journal[c].fp != op.task.fp then END
      else match s.journal[c].status
        case Completed(r) => Move(None, Answer(c, r))
        case Running => END
        case HandedOff(g) => Go(op, Parked(g))
  }

  /** `_close`: look the session up and dispose of it. */
  function PlanClosing(s: State, op: Op): Move {
    match ThreadOf(op.task)
    case None => END
    case Some(t) =>
      if t in s.sessions then Go(op, AtSession(s.sessions[t], ToClose))
      else if op.task.Execute? then Go(op, CloseRecord)
      else END
  }

  function AfterExpiry(op: Op, stage: Stage): Pc {
    match stage
    case First => Reading
    case Ensuring(p) => Looking(p)
    case Visiting => Visited
  }

  /** `_expire_handoffs`: some pending handoffs of the thread expire, and with them perhaps the session. */
  function PlanExpiring(s: State, op: Op, stage: Stage, ch: Choice): Move {
    match ThreadOf(op.task)
    case None => END
    case Some(t) =>
      if ch.flag && t in s.sessions && s.sessions[t] in s.objs && s.objs[s.sessions[t]].human
      then GoWith(op, AtSession(s.sessions[t], ToExpire(stage)), ExpireRows(t, ch.calls))
      else GoWith(op, AfterExpiry(op, stage), ExpireRows(t, ch.calls))
  }

  /** `_ensure` after expiry: reuse the registered session or go on to launch one. */
  function PlanLooking(s: State, op: Op, p: Profile): Move {
    match ThreadOf(op.task)
    case None => END
    case Some(t) =>
      if t in s.sessions then
        var g := s.sessions[t];
        if g !in s.objs || s.objs[g].closed || !HasCall(op.task) then END
        else Go(op, AtSession(g, ToUse))
      else if PendingHandoff(s, t) then END
      else Go(op, AtProfile(p))
  }

  predicate PendingHandoff(s: State, thread: string) {
    exists c :: c in s.journal && c.thread == thread && s.journal[c].status.HandedOff?
  }

  function PlanVisited(s: State, op: Op, ch: Choice): Move {
    if !op.task.Visit? || op.task.thread !in s.sessions then END
    else
      var g := s.sessions[op.task.thread];
      match op.task.purpose
      case Ticket => if IsOpenForViewer(s, g) then Move(None, IssueTicket(ch.number, op.task.thread, g)) else END
      case _ => if ch.flag then Go(op, AtSession(g, ToClose)) else END
  }

  predicate IsOpenForViewer(s: State, g: nat) {
    g in s.objs && !s.objs[g].closed
  }

  function PlanHaveProfile(s: State, op: Op, p: Profile): Move {
    match op.task
    case Select(t, _) => if p.Named? && p.id in s.profiles then Move(None, Bind(t, Some(p.id))) else END
    case DeleteProfile(id) => if p != Named(id) || id !in s.profiles || Busy(s, p) then END else Go(op, Removing)
    case _ => if ThreadOf(op.task).None? || (p.Named? && p.id !in s.profiles) || Busy(s, p) then END
        else Go(op, Launching(p))
  }

  function PlanLaunching(s: State, op: Op, p: Profile, ch: Choice): Move {
    match ThreadOf(op.task)
    case None => END
    case Some(t) =>
      if ch.number in s.objs then END
      else if HasCall(op.task) then GoWith(op, AtSession(ch.number, ToUse), Insert(t, ch.number, p))
      else Move(None, Insert(t, ch.number, p))
  }

  function PlanHaveSession(s: State, op: Op, g: nat, why: Why): Move {
    match why
    case ToUse =>
      if !IsOpen(s, g) then END
      else if op.task.Handoff? then GoWith(op, Offering(g), SetHuman(g, true))
      else if Journaled(op.task) then Go(op, Arming(g))
      else if op.task.Execute? then Go(op, Ready(g))
      else END
    case ToClose => if op.task.Execute? && !IsOpen(s, g) then END else GoWith(op, Disposing(g, ToClose), MarkClosed(g))
    case ToExpire(stage) => GoWith(op, Disposing(g, why), MarkClosed(g))
    case ToReturn(cancel) => GoWith(op, Returning(g, cancel), SetHuman(g, false))
    case ToFail => END
  }

  /** The driver has been closed: the session is unregistered, and the caller goes on. */
  function PlanDisposing(s: State, op: Op, g: nat, why: Why, ch: Choice): Move {
    match why
    case ToClose => if op.task.Execute? then GoWith(op, CloseRecord, Pop(g)) else Move(None, Pop(g))
    case ToExpire(stage) => GoWith(op, AfterExpiry(op, stage), Pop(g))
    case ToReturn(_) => GoWith(op, HandRecord(ch.text), Pop(g))
    case _ => Move(None, Pop(g))
  }

  function PlanDriving(s: State, op: Op, g: nat, ch: Choice): Move {
    // Timeouts and cancellation dispose of the session; other failures only end the operation.
    if ch.flag then Go(op, Driven(g, ch.text)) else GoWith(op, Disposing(g, ToFail), MarkClosed(g))
  }

  function PlanDriven(s: State, op: Op, g: nat, result: string): Move {
    if op.task.Execute? && Journaled(op.task)
        then Move(None, Complete(CallOf(op.task), Row(op.task.fp, Completed(result)))) else END
  }

  /** An interrupted handoff: raise to the graph, or take the user's response. */
  function PlanParked(s: State, op: Op, g: nat, ch: Choice): Move {
    match ThreadOf(op.task)
    case None => END
    case Some(t) =>
      if t in s.sessions && s.sessions[t] == g then Go(op, AtSession(g, ToReturn(ch.flag)))
      else Go(op, HandRecord(ch.text))
  }

  function PlanReturning(s: State, op: Op, g: nat, cancel: bool, ch: Choice): Move {
    if cancel || ch.flag then GoWith(op, Disposing(g, ToReturn(cancel)), MarkClosed(g)) else Go(op, HandRecord(ch.text))
  }

  function PlanSelecting(s: State, op: Op): Move {
    if !op.task.Select? || op.task.thread in s.sessions then END
    else match op.task.profile
      case None => Move(None, Bind(op.task.thread, None))
      case Some(p) => Go(op, AtProfile(Named(p)))
  }

  /** The targets of a deletion: its thread, every matching thread in use, and every matching session,
      in increasing order; the database may add more matching ones. */
  predicate ProperTargets(s: State, thread: string, targets: seq<string>) {
    && (forall i, j :: 0 <= i < j < |targets| ==> Before(targets[i], targets[j]))
    && thread in targets
    && (forall t :: t in targets ==> Matches(t, thread))
    && (forall o :: o in s.ops && Inside(s.ops[o]) && Matches(ThreadOf(s.ops[o].task).value, thread) ==>
        ThreadOf(s.ops[o].task).value in targets)
    && (forall t :: t in s.sessions && Matches(t, thread) ==> t in targets)
  }

  /** `g` is a registered session that the deletion covers. */
  predicate CoveredSession(s: State, thread: string, g: nat) {
    exists t :: t in s.sessions && Matches(t, thread) && s.sessions[t] == g
  }

  /** Closing tasks for the matching sessions, all of them, and no others, each a new coroutine. */
  predicate ProperKids(s: State, d: nat, thread: string, kids: map<nat, Op>) {
    && (forall k :: k in kids ==>
        k !in s.ops && kids[k].task.CloseOne? && kids[k].task.parent == d && kids[k] == Initial(kids[k].task))
    && (forall k :: k in kids ==> kids[k].task.gen in s.objs && CoveredSession(s, thread, kids[k].task.gen))
    && (forall t :: t in s.sessions && Matches(t, thread) ==> exists k ::
        k in kids && kids[k].task.gen == s.sessions[t])
  }

  /** All the closing tasks of deletion `d` have finished. */
  predicate Gathered(s: State, d: nat) {
    forall o :: o in s.ops ==> s.ops[o].task.CloseOne? ==> s.ops[o].task.parent != d
  }

  function PlanDelete(s: State, id: nat, op: Op, ch: Choice): Option<Move> {
    if !op.task.DeleteThread? then None
    else
      var t := op.task.thread;
      match op.pc
      case Marking => Some(GoWith(op, Marked, Mark(t)))
      case Marked => if ProperTargets(s, t, ch.targets) then Some(Go(op, Locking(ch.targets, 0))) else None
      case Locking(targets, n) =>
        if n == |targets| && ProperKids(s, id, t, ch.kids) then Some(GoWith(op, Gathering(targets), SpawnAll(ch.kids)))
            else None
      case Gathering(targets) => if Gathered(s, id) then Some(GoWith(op, Purging(targets), DropTickets(t))) else None
      case GatherFailed(_) => Some(Move(None, Unmark(t)))
      case Purging(targets) => Some(GoWith(op, Unmarking(targets), Commit(t)))
      case Unmarking(_) => Some(Move(None, Unmark(t)))
      case _ => None
  }

  /** The segment that operation `id` runs next, if it waits for no lock. */
  function Plan(s: State, id: nat, op: Op, ch: Choice): Option<Move> {
    if Wants(op).Some? then None
    else match op.pc
      case Entering => Some(PlanEntering(s, op))
      case InThread => Some(PlanInThread(s, op))
      case Replay => Some(PlanReplay(s, op))
      case Recording => Some(if op.task.Execute?
          then GoWith(op, Closing, WriteRow(CallOf(op.task), Row(op.task.fp, Running))) else END)
      case Closing => Some(PlanClosing(s, op))
      case CloseRecord => Some(if op.task.Execute?
          then Move(None, Complete(CallOf(op.task), Row(op.task.fp, Completed("closed")))) else END)
      case Expiring(stage) => Some(PlanExpiring(s, op, stage, ch))
      case Reading => Some(PlanReading(s, op))
      case Looking(p) => Some(PlanLooking(s, op, p))
      case Visited => Some(PlanVisited(s, op, ch))
      case HaveProfile(p) => Some(PlanHaveProfile(s, op, p))
      case Launching(p) => Some(PlanLaunching(s, op, p, ch))
      case HaveSession(g, why) => Some(PlanHaveSession(s, op, g, why))
      case Disposing(g, why) => Some(PlanDisposing(s, op, g, why, ch))
      case Unwatched(g) => Some(Move(None, Pop(g)))
      case Arming(g) => Some(if op.task.Execute?
          then GoWith(op, Ready(g), WriteRow(CallOf(op.task), Row(op.task.fp, Running))) else END)
      case Ready(g) => Some(if op.task.Execute? && op.task.kind.RunTool?
          then GoWith(op, Driving(g), Start(CallOf(op.task))) else Go(op, Driving(g)))
      case Driving(g) => Some(PlanDriving(s, op, g, ch))
      case Driven(g, r) => Some(PlanDriven(s, op, g, r))
      case Offering(g) => Some(if op.task.Handoff?
          then GoWith(op, Parked(g), WriteRow(CallOf(op.task), Row(op.task.fp, HandedOff(g)))) else END)
      case Parked(g) => Some(PlanParked(s, op, g, ch))
      case Returning(g, cancel) => Some(PlanReturning(s, op, g, cancel, ch))
      case HandRecord(r) => Some(if op.task.Handoff?
          then Move(None, Complete(CallOf(op.task), Row(op.task.fp, Completed(r)))) else END)
      case Selecting => Some(PlanSelecting(s, op))
      case Removing => Some(if op.task.DeleteProfile? then Move(None, DropProfile(op.task.id)) else END)
      case _ => PlanDelete(s, id, op, ch)
  }

  /** How an operation ends early: on an error, on cancellation, or when the graph is interrupted. */
  function Abort(op: Op, ch: Choice): Move {
    match op.pc
    case Offering(g) => Move(None, SetHuman(g, false))
    case Disposing(g, _) =>
      // The disposal is cancelled after or before it unregisters the session, or goes on by itself.
      if ch.number == 0 then Move(None, Pop(g))
      else if ch.number == 1 && !op.task.CloseOne? then Move(Some(Initial(Finishing(g))), Nothing)
      else if op.task.CloseOne? then Move(None, FailParent(op.task.parent))
      else END
    case _ =>
      if op.task.CloseOne? then Move(None, FailParent(op.task.parent))
      else if op.task.DeleteThread? && !op.pc.AtDelete? && !op.pc.Marking? then Move(None, Unmark(op.task.thread))
      else END
  }

  // ---------------------------------------------------------------- steps and runs

  function Perform(s: State, id: nat, m: Move): State {
    var s1 := s.(ops := match m.next case None => s.ops - {id} case Some(op) => s.ops[id := op]);
    ApplyEffect(s1, m.effect)
  }

  ghost predicate Free(s: State, k: Key) {
    forall o :: o in s.ops ==> !Holds(s.ops[o], k)
  }

  ghost predicate Spawn(s: State, s': State, id: nat, task: Task) {
    && id !in s.ops && !task.CloseOne? && !task.Finishing?
    && s' == s.(ops := s.ops[id := Initial(task)])
  }

  ghost predicate Grant(s: State, s': State, id: nat) {
    && id in s.ops && Wants(s.ops[id]).Some? && Free(s, Wants(s.ops[id]).value)
    && s' == s.(ops := s.ops[id := Granted(s.ops[id])])
  }

  ghost predicate Work(s: State, s': State, id: nat, ch: Choice) {
    id in s.ops && Plan(s, id, s.ops[id], ch).Some? && s' == Perform(s, id, Plan(s, id, s.ops[id], ch).value)
  }

  ghost predicate Aborts(s: State, s': State, id: nat, ch: Choice) {
    id in s.ops && s' == Perform(s, id, Abort(s.ops[id], ch))
  }

  /** The process dies and starts again: memory is lost, the database is kept. */
  function Crash(s: State): State {
    s.(ops := map[], sessions := map[], objs := map[], deleting := {}, tickets := map[], closing := false)
  }

  /** What happens outside any operation: a new named profile, a viewer's ticket is consumed or expires,
      the service starts to shut down. */
  ghost predicate Outside(s: State, s': State, id: string, token: nat) {
    || s' == s.(profiles := s.profiles + {id})
    || s' == s.(tickets := s.tickets - {token})
    || s' == s.(closing := true)
  }

  ghost predicate Next(s: State, s': State) {
    || (exists id, task :: Spawn(s, s', id, task))
    || (exists id :: Grant(s, s', id))
    || (exists id, ch :: Work(s, s', id, ch))
    || (exists id, ch :: Aborts(s, s', id, ch))
    || (exists id, token :: Outside(s, s', id, token))
    || s' == Crash(s)
  }

  /** Any database without finished or running actions of earlier versions is a possible start. */
  ghost predicate Init(s: State) {
    && s == Crash(s)
    && s.journal == map[] && s.started == multiset{} && s.answers == {} && s.deletions == []
  }

  ghost predicate Run(run: seq<State>) {
    run != [] && Init(run[0]) && forall i :: 0 < i < |run| ==> Next(run[i - 1], run[i])
  }
}
