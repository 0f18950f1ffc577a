/**
 Every interleaving of runs, injections, forks and compactions that use the registry.

 A client is one coroutine; a step is what it does between two awaits.  A run may append to its
 thread's history, restart it from an earlier message, or replace it by something made from a history
 that it read before a long await; an injection appends; a fork only reads; a compaction reads,
 summarises, reads again and replaces.
 */
module ThreadProtocol {
  import opened Prelude
  import opened Messages
  import opened ActiveSessions
  import opened Compaction

  /** What a compaction is going to write: the summary of `history[..cut]` and the rest; `safe` observes that its
      starting cut was safe. */
  datatype Plan = Plan(w: Wording, summary: string, cut: nat, safe: bool)

  /** What a run has read, and its thread's ledger at that time. */
  datatype View = View(read: seq<Message>, mark: Ledger)

  datatype Client =
    | Running(thread: string, session: string, view: Option<View>)
    | Injecting(thread: string)
    | Forking(thread: string)
    | Compacting(thread: string, stage: Stage)

  datatype Stage =
    | Reserved
    | HasRead(read: seq<Message>)
    | Summarised(read: seq<Message>, plan: Plan)
    | Checked(read: seq<Message>, plan: Plan)

  /** Every message ever written to a thread, every one that a compaction summarised away, that an edit
      restarted before, that a run dropped from what it had read, and that a run erased without having
      read it.  A ledger only observes. */
  datatype Ledger = Ledger(
    written: multiset<Message>, summarised: multiset<Message>, restarted: multiset<Message>,
    shed: multiset<Message>, lost: multiset<Message>)

  const NOTHING := Ledger(multiset{}, multiset{}, multiset{}, multiset{}, multiset{})

  datatype State = State(
    registry: Registry, clients: map<nat, Client>, history: map<string, seq<Message>>, ledgers: map<string, Ledger>)

  function History(s: State, t: string): seq<Message> {
    if t in s.history then s.history[t] else []
  }

  function LedgerOf(s: State, t: string): Ledger {
    if t in s.ledgers then s.ledgers[t] else NOTHING
  }

  function Charge(l: Ledger, due: Ledger): Ledger {
    Ledger(l.written + due.written, l.summarised + due.summarised, l.restarted + due.restarted, l.shed + due.shed,
        l.lost + due.lost)
  }

  ghost predicate Init(s: State) {
    && s.registry == Registry(map[], map[], {}) && s.clients == map[]
    && forall t :: LedgerOf(s, t) == NOTHING.(written := multiset(History(s, t)))
  }

  predicate Holds(c: Client, t: string) {
    !c.Running? && c.thread == t
  }

  predicate HoldsIdle(c: Client, t: string) {
    (c.Forking? || c.Compacting?) && c.thread == t
  }

  // ---------------------------------------------------------------- steps

  /** Client `c` appears in state `k`, and the registry moves to `r`. */
  function Enter(s: State, c: nat, k: Client, r: Registry): State {
    s.(clients := s.clients[c := k], registry := r)
  }

  function Leave(s: State, c: nat, r: Registry): State {
    s.(clients := s.clients - {c}, registry := r)
  }

  function Write(s: State, t: string, h: seq<Message>, due: Ledger): State {
    s.(history := s.history[t := h], ledgers := s.ledgers[t := Charge(LedgerOf(s, t), due)])
  }

  function Adding(msgs: seq<Message>): Ledger {
    NOTHING.(written := multiset(msgs))
  }

  ghost predicate StartRun(s: State, s': State, c: nat, t: string, newId: string) {
    && c !in s.clients && newId !in s.registry.threads
    && exists id, r :: AcquireStep(s.registry, r, t, newId, Some(id)) && s' == Enter(s, c, Running(t, id, None), r)
  }

  ghost predicate RunAppends(s: State, s': State, c: nat, msgs: seq<Message>) {
    && c in s.clients && s.clients[c].Running?
    && var t := s.clients[c].thread;
    && s' == Write(s, t, History(s, t) + msgs, Adding(msgs))
  }

  /** An edit: the run restarts from the first `keep` messages. */
  ghost predicate RunRestarts(s: State, s': State, c: nat, keep: nat, msgs: seq<Message>) {
    && c in s.clients && s.clients[c].Running?
    && var t := s.clients[c].thread;
    && var h := History(s, t);
    && keep <= |h|
    && s' == Write(s, t, h[..keep] + msgs, Adding(msgs).(restarted := multiset(h[keep..])))
  }

  function Viewing(s: State, c: nat, view: Option<View>): State
    requires c in s.clients && s.clients[c].Running?
  {
    s.(clients := s.clients[c := s.clients[c].(view := view)])
  }

  /** The run takes its history in hand, before it awaits a summary, the model, or a nested workflow. */
  ghost predicate RunReads(s: State, s': State, c: nat) {
    && c in s.clients && s.clients[c].Running?
    && var t := s.clients[c].thread;
    && s' == Viewing(s, c, Some(View(History(s, t), LedgerOf(s, t))))
  }

  /** What replacing history `h` by `out`, made from `read`, does: it writes what is new in `out`, and again what
      the history no longer had; it drops what `out` leaves out of `read`, and erases what `read` does not have. */
  function Replacing(h: seq<Message>, read: seq<Message>, out: seq<Message>): Ledger {
    NOTHING.(written := (multiset(out) - multiset(read)) + (multiset(read) - multiset(h)),
             shed := multiset(read) - multiset(out), lost := multiset(h) - multiset(read))
  }

  /** The run writes back all of its history: compacted, trimmed, or what a nested workflow returned, with the
      model's response. */
  ghost predicate RunReplaces(s: State, s': State, c: nat, out: seq<Message>) {
    && c in s.clients && s.clients[c].Running? && s.clients[c].view.Some?
    && var t := s.clients[c].thread;
    && s' == Viewing(Write(s, t, out, Replacing(History(s, t), s.clients[c].view.value.read, out)), c, None)
  }

  ghost predicate EndRun(s: State, s': State, c: nat) {
    && c in s.clients && s.clients[c].Running?
    && exists r :: ReleaseStep(s.registry, r, s.clients[c].session) && s' == Leave(s, c, r)
  }

  /** An injection, a fork or a compaction gets its reservation; the last two need an idle thread. */
  ghost predicate StartReserved(s: State, s': State, c: nat, k: Client) {
    && c !in s.clients && !k.Running? && (k.Compacting? ==> k.stage.Reserved?)
    && exists r :: ReserveStep(s.registry, r, k.thread, !k.Injecting?, true) && s' == Enter(s, c, k, r)
  }

  ghost predicate InjectWrites(s: State, s': State, c: nat, human: Message, ai: Message) {
    && c in s.clients && s.clients[c].Injecting? && human.Human? && ai.Ai? && ai.calls == []
    && var t := s.clients[c].thread;
    && s' == Write(s, t, History(s, t) + [human, ai], Adding([human, ai]))
  }

  function To(s: State, c: nat, stage: Stage): State
    requires c in s.clients && s.clients[c].Compacting?
  {
    s.(clients := s.clients[c := s.clients[c].(stage := stage)])
  }

  ghost predicate CompactReads(s: State, s': State, c: nat) {
    && c in s.clients && s.clients[c].Compacting? && s.clients[c].stage.Reserved?
    && s' == To(s, c, HasRead(History(s, s.clients[c].thread)))
  }

  /** The plan is what a successful compaction of `read` returned. */
  ghost predicate Produced(read: seq<Message>, plan: Plan) {
    exists p: CutPlan, count: seq<Message> -> int, generate: (seq<Message>, Option<int>, nat) -> Option<string>,
      out: CompactedHistory, requests: seq<Request> ::
      && Ascending(p.safe) && p.start in p.safe && p.msgs == read
      && Outcome(p, count, generate, plan.safe, Success(out), requests)
      && plan == Plan(p.w, out.summary, out.compactedCount, plan.safe)
  }

  ghost predicate CompactSummarises(s: State, s': State, c: nat, plan: Plan) {
    && c in s.clients && s.clients[c].Compacting? && s.clients[c].stage.HasRead?
    && Produced(s.clients[c].stage.read, plan)
    && s' == To(s, c, Summarised(s.clients[c].stage.read, plan))
  }

  /** The second read; it goes on only when it finds the history that was summarised. */
  ghost predicate CompactChecks(s: State, s': State, c: nat) {
    && c in s.clients && s.clients[c].Compacting? && s.clients[c].stage.Summarised?
    && var k := s.clients[c];
    && History(s, k.thread) == k.stage.read
    && s' == To(s, c, Checked(k.stage.read, k.stage.plan))
  }

  /** The write puts the summary and the rest in the place of whatever the history is by then. */
  ghost predicate CompactWrites(s: State, s': State, c: nat) {
    && c in s.clients && s.clients[c].Compacting? && s.clients[c].stage.Checked?
    && var k := s.clients[c];
    && var plan := k.stage.plan;
    && plan.cut < |k.stage.read|
    && var out := Inject(plan.w, plan.summary, k.stage.read, plan.cut);
    && s' == To(Write(s, k.thread, out,
        Adding(Pair(plan, k.stage.read)).(summarised := multiset(k.stage.read[..plan.cut]))), c, Reserved)
  }

  /** Leaving a reservation: after finishing, after a failure, or on cancellation. */
  ghost predicate EndReserved(s: State, s': State, c: nat) {
    && c in s.clients && !s.clients[c].Running?
    && exists r :: EndReservationStep(s.registry, r, s.clients[c].thread) && s' == Leave(s, c, r)
  }

  ghost predicate Next(s: State, s': State) {
    || (exists c, t, newId :: StartRun(s, s', c, t, newId))
    || (exists c, msgs :: RunAppends(s, s', c, msgs))
    || (exists c, keep, msgs :: RunRestarts(s, s', c, keep, msgs))
    || (exists c :: RunReads(s, s', c))
    || (exists c, out :: RunReplaces(s, s', c, out))
    || (exists c :: EndRun(s, s', c))
    || (exists c, k :: StartReserved(s, s', c, k))
    || (exists c, human, ai :: InjectWrites(s, s', c, human, ai))
    || (exists c :: CompactReads(s, s', c))
    || (exists c, plan :: CompactSummarises(s, s', c, plan))
    || (exists c :: CompactChecks(s, s', c))
    || (exists c :: CompactWrites(s, s', c))
    || (exists c :: EndReserved(s, s', c))
  }

  ghost predicate Run(run: seq<State>) {
    run != [] && Init(run[0]) && forall i :: 0 < i < |run| ==> Next(run[i - 1], run[i])
  }

  // ---------------------------------------------------------------- what every run keeps

  ghost function Holders(s: State, id: string): set<nat> {
    set c | c in s.clients && s.clients[c].Running? && s.clients[c].session == id
  }

  /** Reference counts: the registered sessions are exactly those in use, each counted once for every
      outstanding acquire, and each thread has at most one. */
  ghost predicate CountsOk(s: State) {
    && s.registry.refs.Keys == s.registry.threads.Keys
    && (forall id :: id in s.registry.refs ==> s.registry.refs[id] == |Holders(s, id)| > 0)
    && (forall c :: c in s.clients && s.clients[c].Running? ==>
          s.clients[c].session in s.registry.threads && s.registry.threads[s.clients[c].session] == s.clients[c].thread)
    && (forall i, j ::
        i in s.registry.threads && j in s.registry.threads && s.registry.threads[i] == s.registry.threads[j] ==> i == j)
  }

  /** Reservations: the reserved threads are exactly those with a holder, no thread has two, and no
      session exists for a thread that is reserved as idle. */
  ghost predicate ReservationsOk(s: State) {
    && (forall t :: t in s.registry.mutations <==> exists c :: c in s.clients && Holds(s.clients[c], t))
    && (forall c, d, t :: c in s.clients && d in s.clients && Holds(s.clients[c], t) && Holds(s.clients[d], t) ==>
        c == d)
    && (forall c, t :: c in s.clients && HoldsIdle(s.clients[c], t) ==> !HasSession(s.registry, t))
  }

  ghost predicate ReadsFresh(k: Client, s: State) {
    k.Compacting? && !k.stage.Reserved? ==>
      && k.stage.read == History(s, k.thread)
      && (!k.stage.HasRead? ==> SoundPlan(k.stage.read, k.stage.plan))
  }

  ghost predicate SoundPlan(read: seq<Message>, plan: Plan) {
    0 < plan.cut < |read| && (plan.safe ==> Legal(read[plan.cut..]))
  }

  /** What a compaction has read is still the whole history of its thread. */
  ghost predicate SnapshotsOk(s: State) {
    forall c :: c in s.clients ==> ReadsFresh(s.clients[c], s)
  }

  /** What a run has read may be out of date by now; its ledger of that time accounts for it. */
  ghost predicate ViewOk(k: Client, s: State) {
    k.Running? && k.view.Some? ==>
      Balances(multiset(k.view.value.read), k.view.value.mark) && Grown(k.view.value.mark, LedgerOf(s, k.thread))
  }

  predicate Grown(l: Ledger, l': Ledger) {
    && l.written <= l'.written && l.summarised <= l'.summarised && l.restarted <= l'.restarted
    && l.shed <= l'.shed && l.lost <= l'.lost
  }

  ghost predicate ViewsOk(s: State) {
    forall c :: c in s.clients ==> ViewOk(s.clients[c], s)
  }

  /** Conservation: every message ever written is in the history, was summarised by a compaction, restarted away
      by an edit, dropped by a run that had read it, or erased by a run that had not. */
  ghost predicate Conserved(s: State) {
    forall t :: Balanced(s, t)
  }

  ghost predicate Balanced(s: State, t: string) {
    Balances(multiset(History(s, t)), LedgerOf(s, t))
  }

  predicate Balances(h: multiset<Message>, l: Ledger) {
    l.written == h + l.summarised + l.restarted + l.shed + l.lost
  }

  ghost predicate Inv(s: State) {
    CountsOk(s) && ReservationsOk(s) && SnapshotsOk(s) && ViewsOk(s) && Conserved(s)
  }

  /** A step that leaves all histories alone keeps conservation, and what the clients that it does not touch
      have read. */
  lemma HistoriesUntouched(s: State, s': State)
    requires SnapshotsOk(s) && ViewsOk(s) && Conserved(s) && s'.history == s.history && s'.ledgers == s.ledgers
    requires forall d :: d in s'.clients ==>
               || (d in s.clients && s'.clients[d] == s.clients[d])
               || (if s'.clients[d].Compacting? then s'.clients[d].stage.Reserved?
                   else s'.clients[d].Running? ==> s'.clients[d].view.None?)
    ensures SnapshotsOk(s') && ViewsOk(s') && Conserved(s')
  {
    forall d | d in s'.clients ensures ReadsFresh(s'.clients[d], s') && ViewOk(s'.clients[d], s') {
      if d in s.clients && s'.clients[d] == s.clients[d] {
        assert ReadsFresh(s.clients[d], s) && ViewOk(s.clients[d], s);
      }
    }
    forall t ensures Balanced(s', t) {
      assert Balanced(s, t);
    }
  }

  lemma HoldersAfterStart(s: State, s': State, c: nat, t: string, id: string)
    requires c !in s.clients && s'.clients == s.clients[c := Running(t, id, None)]
    ensures |Holders(s', id)| == |Holders(s, id)| + 1
    ensures forall x :: x != id ==> Holders(s', x) == Holders(s, x)
  {
    assert Holders(s', id) == Holders(s, id) + {c} && c !in Holders(s, id);
  }

  lemma NobodyHolds(s: State, t: string, newId: string)
    requires CountsOk(s) && newId !in s.registry.threads
    ensures Holders(s, newId) == {}
    ensures !HasSession(s.registry, t) ==> forall x :: x in s.registry.threads ==> s.registry.threads[x] != t
  {
    assert forall d :: d in s.clients && s.clients[d].Running? ==> s.clients[d].session != newId;
  }

  lemma CountsAfterStart(s: State, s': State, c: nat, t: string, newId: string, id: string)
    requires CountsOk(s) && c !in s.clients && newId !in s.registry.threads
    requires AcquireStep(s.registry, s'.registry, t, newId, Some(id))
        && s'.clients == s.clients[c := Running(t, id, None)]
    ensures CountsOk(s')
  {
    hide Holders, HasSession;
    HoldersAfterStart(s, s', c, t, id);
    NobodyHolds(s, t, newId);
    forall d | d in s'.clients && s'.clients[d].Running?
      ensures s'.clients[d].session in s'.registry.threads
          && s'.registry.threads[s'.clients[d].session] == s'.clients[d].thread
    {
      assert d != c ==> s'.clients[d] == s.clients[d];
    }
  }

  lemma StartRunKeeps(s: State, s': State, c: nat, t: string, newId: string)
    requires Inv(s) && StartRun(s, s', c, t, newId)
    ensures Inv(s')
  {
    var id, r :| AcquireStep(s.registry, r, t, newId, Some(id)) && s' == Enter(s, c, Running(t, id, None), r);
    CountsAfterStart(s, s', c, t, newId, id);
    ReservationsWithRun(s, s', c, t, id);
    HistoriesUntouched(s, s');
  }

  lemma ReservationsWithRun(s: State, s': State, c: nat, t: string, id: string)
    requires ReservationsOk(s) && c !in s.clients && t !in s.registry.mutations
    requires s'.clients == s.clients[c := Running(t, id, None)] && s'.registry.mutations == s.registry.mutations
    requires s'.registry.threads == s.registry.threads || s'.registry.threads == s.registry.threads[id := t]
    requires id in s.registry.threads ==> s.registry.threads[id] == t
    ensures ReservationsOk(s')
  {
    forall u ensures u in s'.registry.mutations <==> exists d :: d in s'.clients && Holds(s'.clients[d], u) {
      if u in s.registry.mutations {
        var d :| d in s.clients && Holds(s.clients[d], u);
        assert d in s'.clients && Holds(s'.clients[d], u);
      }
      if d :| d in s'.clients && Holds(s'.clients[d], u) {
        assert d in s.clients && Holds(s.clients[d], u);
      }
    }
    forall d, u | d in s'.clients && HoldsIdle(s'.clients[d], u) ensures !HasSession(s'.registry, u) {
      assert HoldsIdle(s.clients[d], u) && Holds(s.clients[d], u);
      assert u in s.registry.mutations && !HasSession(s.registry, u);
      forall x | x in s'.registry.threads ensures s'.registry.threads[x] != u {
        assert x in s.registry.threads ==> s'.registry.threads[x] == s.registry.threads[x];
      }
    }
  }

  lemma HoldersAfterEnd(s: State, s': State, c: nat)
    requires c in s.clients && s.clients[c].Running? && s'.clients == s.clients - {c}
    ensures var id := s.clients[c].session;
            c in Holders(s, id) && Holders(s', id) == Holders(s, id) - {c} && forall x :: x != id ==>
                Holders(s', x) == Holders(s, x)
  {
  }

  lemma InHolders(s: State, d: nat)
    requires d in s.clients && s.clients[d].Running?
    ensures d in Holders(s, s.clients[d].session)
  {
  }

  lemma CountsAfterEnd(s: State, s': State, c: nat)
    requires CountsOk(s) && c in s.clients && s.clients[c].Running?
    requires ReleaseStep(s.registry, s'.registry, s.clients[c].session) && s'.clients == s.clients - {c}
    ensures CountsOk(s')
  {
    hide Holders;
    var id := s.clients[c].session;
    HoldersAfterEnd(s, s', c);
    assert |Holders(s', id)| == |Holders(s, id)| - 1;
    forall d | d in s'.clients && s'.clients[d].Running?
      ensures s'.clients[d].session in s'.registry.threads
          && s'.registry.threads[s'.clients[d].session] == s'.clients[d].thread {
      InHolders(s', d);
    }
  }

  lemma EndRunKeeps(s: State, s': State, c: nat)
    requires Inv(s) && EndRun(s, s', c)
    ensures Inv(s')
  {
    CountsAfterEnd(s, s', c);
    ReservationsWithout(s, s', c);
    HistoriesUntouched(s, s');
  }

  lemma ReservationsWithout(s: State, s': State, c: nat)
    requires ReservationsOk(s) && c in s.clients
    requires s'.clients == s.clients - {c}
    requires s'.registry.mutations
        == (if s.clients[c].Running? then s.registry.mutations else s.registry.mutations - {s.clients[c].thread})
    requires forall id :: id in s'.registry.threads ==>
        id in s.registry.threads && s'.registry.threads[id] == s.registry.threads[id]
    ensures ReservationsOk(s')
  {
    assert forall d :: d in s'.clients ==> d in s.clients && s'.clients[d] == s.clients[d];
    forall u ensures u in s'.registry.mutations <==> exists d :: d in s'.clients && Holds(s'.clients[d], u) {
      if u in s'.registry.mutations {
        var d :| d in s.clients && Holds(s.clients[d], u);
        assert d in s'.clients && Holds(s'.clients[d], u);
      }
      if d :| d in s'.clients && Holds(s'.clients[d], u) {
        assert Holds(s.clients[d], u);
        assert !s.clients[c].Running? ==> Holds(s.clients[c], s.clients[c].thread);
      }
    }
    forall d, u | d in s'.clients && HoldsIdle(s'.clients[d], u) ensures !HasSession(s'.registry, u) {
      assert HoldsIdle(s.clients[d], u);
      if x :| x in s'.registry.threads && s'.registry.threads[x] == u {
        assert HasSession(s.registry, u);
      }
    }
  }

  /** The counts depend on the running clients and their sessions only. */
  lemma CountsUntouched(s: State, s': State)
    requires CountsOk(s) && s'.registry.threads == s.registry.threads && s'.registry.refs == s.registry.refs
    requires forall d :: d in s'.clients && s'.clients[d].Running? <==> d in s.clients && s.clients[d].Running?
    requires forall d :: d in s'.clients && s'.clients[d].Running? ==>
               s'.clients[d].thread == s.clients[d].thread && s'.clients[d].session == s.clients[d].session
    ensures CountsOk(s')
  {
    assert forall x :: Holders(s', x) == Holders(s, x);
  }

  lemma ReservationsAfterStart(s: State, s': State, c: nat, k: Client)
    requires ReservationsOk(s) && c !in s.clients && !k.Running?
    requires ReserveStep(s.registry, s'.registry, k.thread, !k.Injecting?, true) && s'.clients == s.clients[c := k]
    ensures ReservationsOk(s')
  {
    var t := k.thread;
    forall u ensures u in s'.registry.mutations <==> exists d :: d in s'.clients && Holds(s'.clients[d], u) {
      if u == t {
        assert Holds(s'.clients[c], t);
      } else {
        if u in s.registry.mutations {
          var d :| d in s.clients && Holds(s.clients[d], u);
          assert d in s'.clients && Holds(s'.clients[d], u);
        }
        if d :| d in s'.clients && Holds(s'.clients[d], u) {
          assert d in s.clients && Holds(s.clients[d], u);
        }
      }
    }
    forall d, e, u | d in s'.clients && e in s'.clients && Holds(s'.clients[d], u) && Holds(s'.clients[e], u)
        ensures d == e {
      assert d != c ==> Holds(s.clients[d], u);
      assert e != c ==> Holds(s.clients[e], u);
    }
    forall d, u | d in s'.clients && HoldsIdle(s'.clients[d], u) ensures !HasSession(s'.registry, u) {
      assert d != c ==> HoldsIdle(s.clients[d], u) && !HasSession(s.registry, u);
    }
  }

  lemma StartReservedKeeps(s: State, s': State, c: nat, k: Client)
    requires Inv(s) && StartReserved(s, s', c, k)
    ensures Inv(s')
  {
    hide CountsOk, ReservationsOk, SnapshotsOk, ViewsOk, Conserved;
    CountsUntouched(s, s');
    ReservationsAfterStart(s, s', c, k);
    HistoriesUntouched(s, s');
  }

  lemma EndReservedKeeps(s: State, s': State, c: nat)
    requires Inv(s) && EndReserved(s, s', c)
    ensures Inv(s')
  {
    hide CountsOk, ReservationsOk, SnapshotsOk, ViewsOk, Conserved;
    CountsUntouched(s, s');
    ReservationsWithout(s, s', c);
    HistoriesUntouched(s, s');
  }

  /** A client that may write to a thread excludes every compaction of it but its own. */
  lemma WriterExcludes(s: State, c: nat, d: nat)
    requires CountsOk(s) && ReservationsOk(s) && c in s.clients && d in s.clients && c != d
    requires !s.clients[c].Forking? && s.clients[d].Compacting?
    ensures s.clients[d].thread != s.clients[c].thread
  {
    var t, u := s.clients[c].thread, s.clients[d].thread;
    assert HoldsIdle(s.clients[d], u) && Holds(s.clients[d], u);
    if s.clients[c].Running? {
      assert HasSession(s.registry, t) by { assert s.registry.threads[s.clients[c].session] == t; }
    } else {
      assert Holds(s.clients[c], t);
    }
  }

  lemma WriteKeepsSnapshots(s: State, s': State, c: nat)
    requires CountsOk(s) && ReservationsOk(s) && SnapshotsOk(s) && c in s.clients && !s.clients[c].Forking?
    requires forall d :: d in s'.clients ==> d in s.clients && (d != c ==> s'.clients[d] == s.clients[d])
    requires c in s'.clients && (!s'.clients[c].Compacting? || s'.clients[c].stage.Reserved?)
    requires forall u :: u != s.clients[c].thread ==> History(s', u) == History(s, u)
    ensures SnapshotsOk(s')
  {
    forall d | d in s'.clients ensures ReadsFresh(s'.clients[d], s') {
      if d != c && s'.clients[d].Compacting? {
        assert ReadsFresh(s.clients[d], s);
        WriterExcludes(s, c, d);
      }
    }
  }

  /** The new history and all that the step charges come from the old history and what the step writes. */
  ghost predicate Pays(h: multiset<Message>, h': multiset<Message>, due: Ledger) {
    h' + due.summarised + due.restarted + due.shed + due.lost == h + due.written
  }

  lemma BagAlgebra(h: multiset<Message>, h': multiset<Message>, due: Ledger, l: Ledger)
    requires Pays(h, h', due) && Balances(h, l)
    ensures Balances(h', Charge(l, due))
  {
    var c := Charge(l, due);
    forall m ensures c.written[m] == (h' + c.summarised + c.restarted + c.shed + c.lost)[m] {
      assert (h' + due.summarised + due.restarted + due.shed + due.lost)[m] == (h + due.written)[m];
    }
  }

  lemma ChargeGrows(l: Ledger, due: Ledger)
    ensures Grown(l, Charge(l, due))
  {
  }

  lemma WriteLedgers(s: State, t: string, h: seq<Message>, due: Ledger, u: string)
    ensures var s' := Write(s, t, h, due);
            && History(s', u) == (if u == t then h else History(s, u))
            && LedgerOf(s', u) == (if u == t then Charge(LedgerOf(s, t), due) else LedgerOf(s, u))
            && s'.clients == s.clients
  {
    hide Charge;
  }

  lemma WriteBalances(s: State, t: string, h: seq<Message>, due: Ledger, u: string)
    requires Balanced(s, t) && Balanced(s, u) && Pays(multiset(History(s, t)), multiset(h), due)
    ensures Balanced(Write(s, t, h, due), u)
  {
    hide Pays, Balances, Charge, Write, LedgerOf, History;
    WriteLedgers(s, t, h, due, u);
    if u == t {
      BagAlgebra(multiset(History(s, t)), multiset(h), due, LedgerOf(s, t));
    }
  }

  lemma WriteViews(s: State, t: string, h: seq<Message>, due: Ledger, k: Client)
    requires ViewOk(k, s)
    ensures ViewOk(k, Write(s, t, h, due))
  {
    hide Balances, Charge, Write, LedgerOf, History;
    if k.Running? && k.view.Some? {
      WriteLedgers(s, t, h, due, k.thread);
      ChargeGrows(LedgerOf(s, t), due);
    }
  }

  /** A write that pays keeps conservation, and what every run that has read relies on. */
  lemma WriteConserves(s: State, t: string, h: seq<Message>, due: Ledger)
    requires Conserved(s) && ViewsOk(s) && Pays(multiset(History(s, t)), multiset(h), due)
    ensures Conserved(Write(s, t, h, due)) && ViewsOk(Write(s, t, h, due))
  {
    hide Pays, Charge, Balanced, ViewOk, LedgerOf;
    forall u ensures Balanced(Write(s, t, h, due), u) {
      WriteBalances(s, t, h, due, u);
    }
    forall d | d in s.clients ensures ViewOk(s.clients[d], Write(s, t, h, due)) {
      WriteViews(s, t, h, due, s.clients[d]);
    }
  }

  /** Clients that read anew or forget what they read. */
  lemma ViewsDepend(s: State, s': State)
    requires ViewsOk(s) && Conserved(s) && s'.history == s.history && s'.ledgers == s.ledgers
    requires forall d :: d in s'.clients && s'.clients[d].Running? && s'.clients[d].view.Some? ==>
               d in s.clients && s.clients[d] == s'.clients[d]
    ensures ViewsOk(s') && Conserved(s')
  {
    forall t ensures Balanced(s', t) {
      assert Balanced(s, t);
    }
    forall d | d in s'.clients ensures ViewOk(s'.clients[d], s') {
      if d in s.clients {
        assert ViewOk(s.clients[d], s);
      }
    }
  }

  lemma AppendKeeps(s: State, s': State, c: nat, msgs: seq<Message>)
    requires Inv(s) && c in s.clients && (s.clients[c].Running? || s.clients[c].Injecting?)
    requires var t := s.clients[c].thread; s' == Write(s, t, History(s, t) + msgs, Adding(msgs))
    ensures Inv(s')
  {
    CountsUntouched(s, s');
    WriteKeepsSnapshots(s, s', c);
    BagOfConcat(History(s, s.clients[c].thread), msgs);
    WriteConserves(s, s.clients[c].thread, History(s, s.clients[c].thread) + msgs, Adding(msgs));
  }

  lemma RestartKeeps(s: State, s': State, c: nat, keep: nat, msgs: seq<Message>)
    requires Inv(s) && RunRestarts(s, s', c, keep, msgs)
    ensures Inv(s')
  {
    hide CountsOk, ReservationsOk, SnapshotsOk, ViewsOk, Conserved, Pays, LedgerOf, Charge;
    var t := s.clients[c].thread;
    var h := History(s, t);
    CountsUntouched(s, s');
    ReservationsUntouched(s, s');
    OthersKeepHistory(s, t, h[..keep] + msgs, Adding(msgs).(restarted := multiset(h[keep..])));
    WriteKeepsSnapshots(s, s', c);
    RestartPays(h, keep, msgs);
    WriteConserves(s, t, h[..keep] + msgs, Adding(msgs).(restarted := multiset(h[keep..])));
  }

  lemma RestartPays(h: seq<Message>, keep: nat, msgs: seq<Message>)
    requires keep <= |h|
    ensures Pays(multiset(h), multiset(h[..keep] + msgs), Adding(msgs).(restarted := multiset(h[keep..])))
  {
    assert h == h[..keep] + h[keep..];
    BagOfConcat(h[..keep], h[keep..]);
    BagOfConcat(h[..keep], msgs);
  }

  lemma ReservationsUntouched(s: State, s': State)
    requires ReservationsOk(s) && s'.registry == s.registry && s'.clients == s.clients
    ensures ReservationsOk(s')
  {
  }

  lemma OthersKeepHistory(s: State, t: string, h: seq<Message>, due: Ledger)
    ensures forall u :: u != t ==> History(Write(s, t, h, due), u) == History(s, u)
  {
    hide Charge, LedgerOf;
  }

  lemma ReadKeeps(s: State, s': State, c: nat)
    requires Inv(s) && RunReads(s, s', c)
    ensures Inv(s')
  {
    hide CountsOk, ReservationsOk, Balanced, History, LedgerOf;
    ClientChangeKeeps(s, s', c);
    assert forall d :: d in s'.clients && d != c ==> s'.clients[d] == s.clients[d];
    forall t ensures Balanced(s', t) {
      assert Balanced(s, t);
      SameThread(s, s', t);
    }
    forall d | d in s'.clients ensures ReadsFresh(s'.clients[d], s') && ViewOk(s'.clients[d], s') {
      assert ReadsFresh(s.clients[d], s) && ViewOk(s.clients[d], s);
      SameThread(s, s', s.clients[d].thread);
    }
  }

  lemma SameThread(s: State, s': State, t: string)
    requires s'.history == s.history && s'.ledgers == s.ledgers
    ensures History(s', t) == History(s, t) && LedgerOf(s', t) == LedgerOf(s, t) && (Balanced(s, t) ==> Balanced(s', t))
  {
  }

  /** A client that only changes what it has read changes neither counts nor reservations. */
  lemma ClientChangeKeeps(s: State, s': State, c: nat)
    requires CountsOk(s) && ReservationsOk(s) && c in s.clients && s.clients[c].Running? && s'.registry == s.registry
    requires s'.clients == s.clients[c := s.clients[c].(view := if c in s'.clients && s'.clients[c].Running?
        then s'.clients[c].view else None)]
    ensures CountsOk(s') && ReservationsOk(s')
  {
    CountsUntouched(s, s');
    assert forall d, u :: d in s'.clients ==> (Holds(s'.clients[d], u) <==> Holds(s.clients[d], u));
    assert forall d, u :: d in s'.clients ==> (HoldsIdle(s'.clients[d], u) <==> HoldsIdle(s.clients[d], u));
    forall u ensures u in s'.registry.mutations <==> exists d :: d in s'.clients && Holds(s'.clients[d], u) {
      if u in s.registry.mutations {
        var d :| d in s.clients && Holds(s.clients[d], u);
        assert Holds(s'.clients[d], u);
      }
    }
  }

  lemma ReplacingPays(h: seq<Message>, read: seq<Message>, out: seq<Message>)
    ensures Pays(multiset(h), multiset(out), Replacing(h, read, out))
  {
    var due, x, y, z := Replacing(h, read, out), multiset(h), multiset(read), multiset(out);
    forall m ensures (z + due.summarised + due.restarted + due.shed + due.lost)[m] == (x + due.written)[m] {
    }
  }

  lemma ReplaceKeeps(s: State, s': State, c: nat, out: seq<Message>)
    requires Inv(s) && RunReplaces(s, s', c, out)
    ensures Inv(s')
  {
    hide Replacing, Pays, CountsOk, ReservationsOk, SnapshotsOk, ViewsOk, Conserved, LedgerOf, Charge;
    var t, read := s.clients[c].thread, s.clients[c].view.value.read;
    var due := Replacing(History(s, t), read, out);
    var written := Write(s, t, out, due);
    ReplacingPays(History(s, t), read, out);
    WriteConserves(s, t, out, due);
    ViewsDepend(written, s');
    ClientChangeKeeps(s, s', c);
    OthersKeepHistory(s, t, out, due);
    assert forall u :: History(s', u) == History(written, u);
    WriteKeepsSnapshots(s, s', c);
  }

  // ---------------------------------------------------------------- what a run can lose

  /** What a history has got since an earlier time, and what it has lost since, was written since. */
  lemma SinceThen(h: multiset<Message>, l: Ledger, read: multiset<Message>, mark: Ledger)
    requires Balances(h, l) && Balances(read, mark) && Grown(mark, l)
    ensures h + mark.written + l.lost <= read + l.written + mark.lost
    ensures h - read <= l.written - mark.written
    ensures h - read == multiset{} <==> h <= read
  {
    forall m ensures (h + mark.written + l.lost)[m] <= (read + l.written + mark.lost)[m]
      && (h - read)[m] <= (l.written - mark.written)[m] {
      assert l.written[m] == (h + l.summarised + l.restarted + l.shed + l.lost)[m];
      assert mark.written[m] == (read + mark.summarised + mark.restarted + mark.shed + mark.lost)[m];
    }
    if h - read == multiset{} {
      forall m ensures h[m] <= read[m] {
        assert (h - read)[m] == 0;
      }
    }
  }

  /** What a run erases by writing back its history is what the thread got after the run had read it, and it
      erases nothing exactly when it had read all that is there. */
  lemma ReplaceLosesLateArrivals(s: State, s': State, c: nat, out: seq<Message>)
    requires ViewsOk(s) && Conserved(s) && RunReplaces(s, s', c, out)
    ensures var t, view := s.clients[c].thread, s.clients[c].view.value;
            var late := multiset(History(s, t)) - multiset(view.read);
            && LedgerOf(s', t).lost == LedgerOf(s, t).lost + late
            && late <= LedgerOf(s, t).written - view.mark.written
            && (LedgerOf(s', t).lost == LedgerOf(s, t).lost <==> multiset(History(s, t)) <= multiset(view.read))
            && (LedgerOf(s, t).written == view.mark.written ==> LedgerOf(s', t).lost == LedgerOf(s, t).lost)
  {
    var t, view := s.clients[c].thread, s.clients[c].view.value;
    assert ViewOk(s.clients[c], s) && Balanced(s, t);
    SinceThen(multiset(History(s, t)), LedgerOf(s, t), multiset(view.read), view.mark);
    NothingAdded(LedgerOf(s, t).lost, multiset(History(s, t)) - multiset(view.read));
  }

  lemma NothingAdded(a: multiset<Message>, b: multiset<Message>)
    ensures a == a + b <==> b == multiset{}
  {
    if a == a + b {
      forall m ensures b[m] == 0 {
        assert a[m] == (a + b)[m];
      }
    }
  }

  /** When the thread only grew since the read, exactly what it grew by is erased. */
  lemma ReplaceLosesAppended(s: State, s': State, c: nat, out: seq<Message>, more: seq<Message>)
    requires RunReplaces(s, s', c, out) && History(s, s.clients[c].thread) == s.clients[c].view.value.read + more
    ensures LedgerOf(s', s.clients[c].thread).lost == LedgerOf(s, s.clients[c].thread).lost + multiset(more)
    ensures LedgerOf(s', s.clients[c].thread).lost == LedgerOf(s, s.clients[c].thread).lost <==> more == []
  {
    var read := s.clients[c].view.value.read;
    BagOfConcat(read, more);
    assert multiset(read + more) - multiset(read) == multiset(more);
    NothingAdded(LedgerOf(s, s.clients[c].thread).lost, multiset(more));
    assert multiset(more) == multiset{} <==> more == [] by {
      if more != [] {
        assert more[0] in multiset(more);
      }
    }
  }

  /** When a run writes back a suffix of what it had read, it drops the prefix in front. */
  lemma ReplaceShedsPrefix(s: State, s': State, c: nat, out: seq<Message>)
    requires RunReplaces(s, s', c, out) && IsSuffix(out, s.clients[c].view.value.read)
    ensures var t, read := s.clients[c].thread, s.clients[c].view.value.read;
            LedgerOf(s', t).shed == LedgerOf(s, t).shed + multiset(read[..|read| - |out|])
  {
    var read := s.clients[c].view.value.read;
    assert read == read[..|read| - |out|] + out;
    BagOfConcat(read[..|read| - |out|], out);
    assert multiset(read) - multiset(out) == multiset(read[..|read| - |out|]);
  }

  /** A stage change of one compaction keeps everything that does not depend on its stage. */
  lemma StageKeeps(s: State, s': State, c: nat, stage: Stage)
    requires CountsOk(s) && ReservationsOk(s) && c in s.clients && s.clients[c].Compacting?
    requires s'.registry == s.registry && s'.clients == s.clients[c := s.clients[c].(stage := stage)]
    ensures CountsOk(s') && ReservationsOk(s')
  {
    assert forall x :: Holders(s', x) == Holders(s, x);
    assert forall d, u :: d in s'.clients ==> (Holds(s'.clients[d], u) <==> Holds(s.clients[d], u));
    assert forall d, u :: d in s'.clients ==> (HoldsIdle(s'.clients[d], u) <==> HoldsIdle(s.clients[d], u));
    forall u ensures u in s'.registry.mutations <==> exists d :: d in s'.clients && Holds(s'.clients[d], u) {
      if u in s.registry.mutations {
        var d :| d in s.clients && Holds(s.clients[d], u);
        assert Holds(s'.clients[d], u);
      }
    }
  }

  lemma CompactStageKeeps(s: State, s': State, c: nat, stage: Stage)
    requires Inv(s) && c in s.clients && s.clients[c].Compacting? && s' == To(s, c, stage)
    requires !stage.Reserved? ==> stage.read == History(s, s.clients[c].thread)
    requires !stage.Reserved? && !stage.HasRead? ==> SoundPlan(stage.read, stage.plan)
    ensures Inv(s')
  {
    StageKeeps(s, s', c, stage);
    ViewsDepend(s, s');
    forall d | d in s'.clients ensures ReadsFresh(s'.clients[d], s') {
      if d != c {
        assert ReadsFresh(s.clients[d], s);
      }
    }
  }

  /** The write of a compaction: it finds exactly the history that it read and summarised, so it erases
      no message that it did not summarise, and it keeps all the others in order. */
  lemma CompactionLosesNothing(s: State, s': State, c: nat)
    requires SnapshotsOk(s) && CompactWrites(s, s', c)
    ensures var t, k := s.clients[c].thread, s.clients[c].stage;
            && History(s, t) == k.read == k.read[..k.plan.cut] + k.read[k.plan.cut..]
            && History(s', t) == Inject(k.plan.w, k.plan.summary, History(s, t), k.plan.cut)
            && IsSuffix(k.read[k.plan.cut..], History(s', t))
            && LedgerOf(s', t).lost == LedgerOf(s, t).lost && LedgerOf(s', t).shed == LedgerOf(s, t).shed
            && LedgerOf(s', t).summarised == LedgerOf(s, t).summarised + multiset(k.read[..k.plan.cut])
  {
    assert ReadsFresh(s.clients[c], s);
    InjectKeeps(s.clients[c].stage.plan, s.clients[c].stage.read);
  }

  function Pair(plan: Plan, read: seq<Message>): seq<Message>
    requires plan.cut < |read|
  {
    var out := Inject(plan.w, plan.summary, read, plan.cut);
    out[..|out| - |read[plan.cut..]|]
  }

  lemma InjectKeeps(plan: Plan, read: seq<Message>)
    requires plan.cut < |read|
    ensures Inject(plan.w, plan.summary, read, plan.cut) == Pair(plan, read) + read[plan.cut..]
    ensures IsSuffix(read[plan.cut..], Inject(plan.w, plan.summary, read, plan.cut))
    ensures read == read[..plan.cut] + read[plan.cut..]
  {
  }

  lemma CompactWritesKeeps(s: State, s': State, c: nat)
    requires Inv(s) && CompactWrites(s, s', c)
    ensures Inv(s')
  {
    var t, k := s.clients[c].thread, s.clients[c].stage;
    assert ReadsFresh(s.clients[c], s);
    StageKeeps(s, s', c, Reserved);
    WriteKeepsSnapshots(s, s', c);
    CutBags(k.plan, k.read);
    var out := Inject(k.plan.w, k.plan.summary, k.read, k.plan.cut);
    var due := Adding(Pair(k.plan, k.read)).(summarised := multiset(k.read[..k.plan.cut]));
    WriteConserves(s, t, out, due);
    ViewsDepend(Write(s, t, out, due), s');
  }

  lemma CutBags(plan: Plan, read: seq<Message>)
    requires plan.cut < |read|
    ensures multiset(Inject(plan.w, plan.summary, read, plan.cut)) + multiset(read[..plan.cut]) == multiset(read)
        + multiset(Pair(plan, read))
  {
    InjectKeeps(plan, read);
    BagOfConcat(Pair(plan, read), read[plan.cut..]);
    BagOfConcat(read[..plan.cut], read[plan.cut..]);
  }

  lemma BagOfConcat(a: seq<Message>, b: seq<Message>)
    ensures multiset(a + b) == multiset(a) + multiset(b)
  {
  }

  /** The second read of a compaction never finds a change: the reservation already excludes one. */
  lemma CheckAlwaysPasses(s: State, c: nat)
    requires Inv(s) && c in s.clients && s.clients[c].Compacting? && s.clients[c].stage.Summarised?
    ensures exists s' :: CompactChecks(s, s', c)
  {
    assert ReadsFresh(s.clients[c], s);
    var k := s.clients[c];
    assert CompactChecks(s, To(s, c, Checked(k.stage.read, k.stage.plan)), c);
  }

  /** On any other history it would not go on. */
  lemma CheckStopsStale(s: State, s': State, c: nat)
    requires c in s.clients && s.clients[c].Compacting? && s.clients[c].stage.Summarised?
    requires History(s, s.clients[c].thread) != s.clients[c].stage.read
    ensures !CompactChecks(s, s', c)
  {
  }

  lemma InitOk(s: State)
    requires Init(s)
    ensures Inv(s)
  {
    forall t ensures Balanced(s, t) {
      assert LedgerOf(s, t) == NOTHING.(written := multiset(History(s, t)));
    }
  }

  lemma CompactMoveKeeps(s: State, s': State, c: nat, plan: Plan)
    requires Inv(s) && (CompactReads(s, s', c) || CompactSummarises(s, s', c, plan) || CompactChecks(s, s', c))
    ensures Inv(s')
  {
    hide Produced, SoundPlan, CountsOk, ReservationsOk, ViewsOk, Conserved;
    assert ReadsFresh(s.clients[c], s);
    if CompactReads(s, s', c) {
      CompactStageKeeps(s, s', c, HasRead(History(s, s.clients[c].thread)));
    } else if CompactSummarises(s, s', c, plan) {
      ProducedIsSound(s.clients[c].stage.read, plan);
      CompactStageKeeps(s, s', c, Summarised(s.clients[c].stage.read, plan));
    } else {
      CompactStageKeeps(s, s', c, Checked(s.clients[c].stage.read, s.clients[c].stage.plan));
    }
  }

  lemma NextKeeps(s: State, s': State)
    requires Inv(s) && Next(s, s')
    ensures Inv(s')
  {
    hide StartRun, RunReads, RunReplaces, RunRestarts, EndRun, StartReserved, EndReserved, CompactWrites, Inv;
    if c, t, newId :| StartRun(s, s', c, t, newId) {
      StartRunKeeps(s, s', c, t, newId);
    } else if c, msgs :| RunAppends(s, s', c, msgs) {
      AppendKeeps(s, s', c, msgs);
    } else if c, keep, msgs :| RunRestarts(s, s', c, keep, msgs) {
      RestartKeeps(s, s', c, keep, msgs);
    } else if c :| RunReads(s, s', c) {
      ReadKeeps(s, s', c);
    } else if c, out :| RunReplaces(s, s', c, out) {
      ReplaceKeeps(s, s', c, out);
    } else if c :| EndRun(s, s', c) {
      EndRunKeeps(s, s', c);
    } else if c, k :| StartReserved(s, s', c, k) {
      StartReservedKeeps(s, s', c, k);
    } else if c, human, ai :| InjectWrites(s, s', c, human, ai) {
      AppendKeeps(s, s', c, [human, ai]);
    } else if c :| CompactReads(s, s', c) {
      CompactMoveKeeps(s, s', c, NO_PLAN);
    } else if c, plan :| CompactSummarises(s, s', c, plan) {
      CompactMoveKeeps(s, s', c, plan);
    } else if c :| CompactChecks(s, s', c) {
      CompactMoveKeeps(s, s', c, NO_PLAN);
    } else if c :| CompactWrites(s, s', c) {
      CompactWritesKeeps(s, s', c);
    } else {
      var c :| EndReserved(s, s', c);
      EndReservedKeeps(s, s', c);
    }
  }

  lemma ProducedIsSound(read: seq<Message>, plan: Plan)
    requires Produced(read, plan)
    ensures SoundPlan(read, plan)
  {
    hide Outcome, Legal;
    var p: CutPlan, count: seq<Message> -> int, generate: (seq<Message>, Option<int>, nat) -> Option<string>,
        out: CompactedHistory, requests: seq<Request> :|
      && Ascending(p.safe) && p.start in p.safe && p.msgs == read
      && Outcome(p, count, generate, plan.safe, Success(out), requests)
      && plan == Plan(p.w, out.summary, out.compactedCount, plan.safe);
    SuccessCut(p, count, generate, plan.safe, out, requests);
    OutcomeFacts(p, count, generate, plan.safe, Success(out), requests);
  }

  /** Every reachable state has exact reference counts, exclusive reservations, fresh snapshots and no
      lost message. */
  lemma {:induction false} RunKeeps(run: seq<State>, i: nat)
    requires Run(run) && i < |run|
    ensures Inv(run[i])
  {
    if i == 0 {
      InitOk(run[0]);
    } else {
      RunKeeps(run, i - 1);
      NextKeeps(run[i - 1], run[i]);
    }
  }

  /** A session disappears exactly when its last user releases it. */
  lemma LastReleaseRemoves(s: State, s': State, c: nat)
    requires Inv(s) && EndRun(s, s', c)
    ensures var id := s.clients[c].session;
            && (id in s'.registry.threads <==> exists d ::
                d != c && d in s.clients && s.clients[d].Running? && s.clients[d].session == id)
            && (forall x :: x != id ==> (x in s'.registry.threads <==> x in s.registry.threads))
  {
    var id := s.clients[c].session;
    assert CountsOk(s') by { EndRunKeeps(s, s', c); }
    OthersStay(s, s', c);
    if id in s'.registry.threads {
      RegisteredIsHeld(s', id);
      var d :| d in s'.clients && s'.clients[d].Running? && s'.clients[d].session == id;
      assert d in s.clients && s.clients[d] == s'.clients[d];
    }
    if d :| d != c && d in s.clients && s.clients[d].Running? && s.clients[d].session == id {
      assert d in s'.clients && s'.clients[d] == s.clients[d];
    }
  }

  lemma OthersStay(s: State, s': State, c: nat)
    requires EndRun(s, s', c)
    ensures forall x :: x != s.clients[c].session ==> (x in s'.registry.threads <==> x in s.registry.threads)
  {
  }

  lemma RegisteredIsHeld(s: State, id: string)
    requires CountsOk(s) && id in s.registry.threads
    ensures exists d :: d in s.clients && s.clients[d].Running? && s.clients[d].session == id
  {
    assert Holders(s, id) != {};
    var d :| d in Holders(s, id);
  }

  /** While a thread is reserved as idle it has no session, and none can be acquired. */
  lemma IdleStaysIdle(s: State, s': State, c: nat, t: string)
    requires Inv(s) && Inv(s') && Next(s, s')
    requires c in s.clients && c in s'.clients && HoldsIdle(s.clients[c], t) && HoldsIdle(s'.clients[c], t)
    ensures !HasSession(s.registry, t) && !HasSession(s'.registry, t)
    ensures forall d, newId :: !StartRun(s, s', d, t, newId)
  {
    assert Holds(s.clients[c], t);
  }

  // ---------------------------------------------------------------- losses and legality over all steps

  ghost predicate WritesNothing(s: State, s': State) {
    s'.history == s.history && s'.ledgers == s.ledgers
  }

  lemma RunsQuietly(s: State, s': State, c: nat, t: string, newId: string)
    requires StartRun(s, s', c, t, newId) || RunReads(s, s', c) || EndRun(s, s', c)
    ensures WritesNothing(s, s')
  {
    hide AcquireStep, ReleaseStep;
  }

  lemma ReservesQuietly(s: State, s': State, c: nat, k: Client)
    requires StartReserved(s, s', c, k) || EndReserved(s, s', c)
    ensures WritesNothing(s, s')
  {
    hide ReserveStep, EndReservationStep;
  }

  lemma CompactsQuietly(s: State, s': State, c: nat, plan: Plan)
    requires CompactReads(s, s', c) || CompactSummarises(s, s', c, plan) || CompactChecks(s, s', c)
    ensures WritesNothing(s, s')
  {
    hide Produced;
  }

  /** Every step is one of five kinds of writes, or writes nothing. */
  ghost predicate Kinds(s: State, s': State) {
    || WritesNothing(s, s')
    || (exists c, msgs :: RunAppends(s, s', c, msgs))
    || (exists c, keep, msgs :: RunRestarts(s, s', c, keep, msgs))
    || (exists c, out :: RunReplaces(s, s', c, out))
    || (exists c, human, ai :: InjectWrites(s, s', c, human, ai))
    || (exists c :: CompactWrites(s, s', c))
  }

  lemma StepKinds(s: State, s': State)
    requires Next(s, s')
    ensures Kinds(s, s')
  {
    hide StartRun, RunReads, EndRun, StartReserved, EndReserved, CompactReads, CompactSummarises, CompactChecks,
        WritesNothing;
    hide RunAppends, RunRestarts, RunReplaces, InjectWrites, CompactWrites;
    if c, t, newId :| StartRun(s, s', c, t, newId) {
      RunsQuietly(s, s', c, t, newId);
    } else if c :| RunReads(s, s', c) {
      RunsQuietly(s, s', c, "", "");
    } else if c :| EndRun(s, s', c) {
      RunsQuietly(s, s', c, "", "");
    } else if c, k :| StartReserved(s, s', c, k) {
      ReservesQuietly(s, s', c, k);
    } else if c :| EndReserved(s, s', c) {
      ReservesQuietly(s, s', c, Forking(""));
    } else if c :| CompactReads(s, s', c) {
      CompactsQuietly(s, s', c, NO_PLAN);
    } else if c, plan :| CompactSummarises(s, s', c, plan) {
      CompactsQuietly(s, s', c, plan);
    } else if c :| CompactChecks(s, s', c) {
      CompactsQuietly(s, s', c, NO_PLAN);
    }
  }

  const NO_PLAN := Plan(Wording("", "", "", "", ""), "", 0, false)

  /** Nothing but a run that writes back its whole history ever erases what it has not read. */
  lemma OnlyReplacingLoses(s: State, s': State, t: string)
    requires Next(s, s') && LedgerOf(s', t).lost != LedgerOf(s, t).lost
    ensures exists c, out :: RunReplaces(s, s', c, out) && s.clients[c].thread == t
  {
    hide Next, RunAppends, RunRestarts, InjectWrites, CompactWrites;
    StepKinds(s, s');
    if c, msgs :| RunAppends(s, s', c, msgs) {
      WritesLoseNothing(s, s', c, msgs, 0, t);
    } else if c, keep, msgs :| RunRestarts(s, s', c, keep, msgs) {
      WritesLoseNothing(s, s', c, msgs, keep, t);
    } else if c, human, ai :| InjectWrites(s, s', c, human, ai) {
      ReservedLoseNothing(s, s', c, human, ai, t);
    } else if c :| CompactWrites(s, s', c) {
      ReservedLoseNothing(s, s', c, Human("", "", false), Human("", "", false), t);
    }
  }

  lemma WritesLoseNothing(s: State, s': State, c: nat, msgs: seq<Message>, keep: nat, t: string)
    requires RunAppends(s, s', c, msgs) || RunRestarts(s, s', c, keep, msgs)
    ensures LedgerOf(s', t).lost == LedgerOf(s, t).lost
  {
  }

  lemma ReservedLoseNothing(s: State, s': State, c: nat, human: Message, ai: Message, t: string)
    requires InjectWrites(s, s', c, human, ai) || CompactWrites(s, s', c)
    ensures LedgerOf(s', t).lost == LedgerOf(s, t).lost
  {
    hide Inject;
  }

  ghost predicate NoRun(s: State, t: string) {
    forall c :: c in s.clients && s.clients[c].Running? ==> s.clients[c].thread != t
  }

  ghost predicate SafePlans(s: State, t: string) {
    forall c ::
      c in s.clients && s.clients[c].Compacting? && s.clients[c].thread == t && s.clients[c].stage.Checked? ==>
      s.clients[c].stage.plan.safe
  }

  /** An injected pair keeps a history legal. */
  lemma PairKeepsLegal(h: seq<Message>, human: Message, ai: Message)
    requires Legal(h) && human.Human? && ai.Ai? && ai.calls == []
    ensures Legal(h + [human, ai])
  {
    ScanConcat(h, [human, ai], {});
    assert Opens(ai) == {} && [ai][1..] == [] && [human, ai][1..] == [ai];
    assert Scan([ai], {}) == Scan([], {});
    assert Scan([human, ai], {}) == Scan([ai], {});
  }

  /** A compaction keeps a history legal exactly when it does not cut in front of a tool result, and so whenever
      its starting cut was safe. */
  lemma CompactionKeepsLegal(s: State, s': State, c: nat)
    requires SnapshotsOk(s) && CompactWrites(s, s', c) && Legal(History(s, s.clients[c].thread))
    ensures var t, k := s.clients[c].thread, s.clients[c].stage;
            && (Legal(History(s', t)) <==> !k.read[k.plan.cut].Tool?)
            && (k.plan.safe ==> Legal(History(s', t)))
  {
    hide Legal, Inject;
    var k := s.clients[c].stage;
    assert ReadsFresh(s.clients[c], s);
    InjectLegal(k.plan.w, k.plan.summary, k.read, k.plan.cut);
    SafeCutIffNotTool(k.read, k.plan.cut);
  }

  lemma RunsWriteTheirs(s: State, s': State, c: nat, keep: nat, msgs: seq<Message>, t: string)
    requires RunAppends(s, s', c, msgs) || RunRestarts(s, s', c, keep, msgs) || RunReplaces(s, s', c, msgs)
    ensures c in s.clients && s.clients[c].Running?
    ensures s.clients[c].thread != t ==> History(s', t) == History(s, t)
  {
    hide Charge, LedgerOf, Replacing, Adding;
  }

  lemma ReservedWriteTheirs(s: State, s': State, c: nat, human: Message, ai: Message, t: string)
    requires InjectWrites(s, s', c, human, ai) || CompactWrites(s, s', c)
    ensures c in s.clients && (s.clients[c].thread != t ==> History(s', t) == History(s, t))
  {
    hide Charge, LedgerOf, Inject, Adding;
  }

  /** Without a run in the thread, only injections and compactions change its history. */
  lemma IdleStep(s: State, s': State, t: string)
    requires Next(s, s') && NoRun(s, t)
    ensures || History(s', t) == History(s, t)
            || (exists c, human, ai :: InjectWrites(s, s', c, human, ai) && c in s.clients && s.clients[c].thread == t)
            || (exists c :: CompactWrites(s, s', c) && c in s.clients && s.clients[c].thread == t)
  {
    hide Next, RunAppends, RunRestarts, RunReplaces, InjectWrites, CompactWrites;
    StepKinds(s, s');
    if c, msgs :| RunAppends(s, s', c, msgs) {
      RunsWriteTheirs(s, s', c, 0, msgs, t);
    } else if c, keep, msgs :| RunRestarts(s, s', c, keep, msgs) {
      RunsWriteTheirs(s, s', c, keep, msgs, t);
    } else if c, out :| RunReplaces(s, s', c, out) {
      RunsWriteTheirs(s, s', c, 0, out, t);
    } else if c, human, ai :| InjectWrites(s, s', c, human, ai) {
      ReservedWriteTheirs(s, s', c, human, ai, t);
    } else if c :| CompactWrites(s, s', c) {
      ReservedWriteTheirs(s, s', c, Human("", "", false), Human("", "", false), t);
    }
  }

  /** A thread without a run stays legal through all injections and compactions, and all that other threads do. */
  lemma {:induction false} IdleThreadStaysLegal(run: seq<State>, i: nat, j: nat, t: string)
    requires Run(run) && i <= j < |run| && Legal(History(run[i], t))
    requires forall k :: i <= k < j ==> NoRun(run[k], t) && SafePlans(run[k], t)
    ensures Legal(History(run[j], t))
  {
    hide Next, Legal, CompactWrites, InjectWrites;
    if i < j {
      IdleThreadStaysLegal(run, i, j - 1, t);
      var s, s' := run[j - 1], run[j];
      RunKeeps(run, j - 1);
      IdleStep(s, s', t);
      if c, human, ai :| InjectWrites(s, s', c, human, ai) && c in s.clients && s.clients[c].thread == t {
        InjectedHistory(s, s', c, human, ai);
        PairKeepsLegal(History(s, t), human, ai);
      } else if c :| CompactWrites(s, s', c) && c in s.clients && s.clients[c].thread == t {
        CompactionKeepsLegal(s, s', c);
        CompactsChecked(s, s', c);
      }
    }
  }

  lemma InjectedHistory(s: State, s': State, c: nat, human: Message, ai: Message)
    requires InjectWrites(s, s', c, human, ai)
    ensures human.Human? && ai.Ai? && ai.calls == []
    ensures History(s', s.clients[c].thread) == History(s, s.clients[c].thread) + [human, ai]
  {
  }

  lemma CompactsChecked(s: State, s': State, c: nat)
    requires CompactWrites(s, s', c)
    ensures c in s.clients && s.clients[c].Compacting? && s.clients[c].stage.Checked?
  {
  }

  // ---------------------------------------------------------------- which messages can be lost at all

  /** No run of the thread has taken its history in hand. */
  predicate NoView(s: State, t: string) {
    forall c :: c in s.clients && s.clients[c].Running? && s.clients[c].thread == t ==> s.clients[c].view.None?
  }

  /** From the time of `l` on no more copies of any message were lost than were written. */
  predicate LosesOnlyLater(l: Ledger, l': Ledger) {
    l'.lost + l.written <= l'.written + l.lost
  }

  /** And the same was so when any run that may still write back has read. */
  ghost predicate LosesOnlyLaterSince(s: State, t: string, l: Ledger) {
    && LosesOnlyLater(l, LedgerOf(s, t))
    && forall c :: c in s.clients && s.clients[c].Running? && s.clients[c].thread == t && s.clients[c].view.Some? ==>
         LosesOnlyLater(l, s.clients[c].view.value.mark)
  }

  /** A run's view is as old as the run's last read. */
  lemma ViewOrigin(s: State, s': State, c: nat)
    requires Next(s, s') && c in s'.clients && s'.clients[c].Running? && s'.clients[c].view.Some?
    ensures (c in s.clients && s.clients[c] == s'.clients[c]) || RunReads(s, s', c)
  {
    hide AcquireStep, ReleaseStep, ReserveStep, EndReservationStep, Produced, Inject, Replacing, History, LedgerOf,
        Charge;
  }

  lemma LedgersGrow(s: State, s': State, t: string)
    requires Kinds(s, s')
    ensures Grown(LedgerOf(s, t), LedgerOf(s', t))
  {
    hide RunAppends, RunRestarts, RunReplaces, InjectWrites, CompactWrites, Grown;
    if WritesNothing(s, s') {
      GrownItself(LedgerOf(s, t));
    } else if c, msgs :| RunAppends(s, s', c, msgs) {
      RunsGrow(s, s', c, 0, msgs, t);
    } else if c, keep, msgs :| RunRestarts(s, s', c, keep, msgs) {
      RunsGrow(s, s', c, keep, msgs, t);
    } else if c, out :| RunReplaces(s, s', c, out) {
      ReplacesGrow(s, s', c, out, t);
    } else if c, human, ai :| InjectWrites(s, s', c, human, ai) {
      ReservedGrow(s, s', c, human, ai, t);
    } else if c :| CompactWrites(s, s', c) {
      ReservedGrow(s, s', c, Human("", "", false), Human("", "", false), t);
    }
  }

  lemma GrownItself(l: Ledger)
    ensures Grown(l, l)
  {
  }

  lemma WriteGrows(s: State, t: string, h: seq<Message>, due: Ledger, u: string)
    ensures Grown(LedgerOf(s, u), LedgerOf(Write(s, t, h, due), u))
  {
    hide Charge, Write, LedgerOf, History, Grown;
    WriteLedgers(s, t, h, due, u);
    GrownItself(LedgerOf(s, u));
    ChargeGrows(LedgerOf(s, t), due);
  }

  lemma RunsGrow(s: State, s': State, c: nat, keep: nat, msgs: seq<Message>, u: string)
    requires RunAppends(s, s', c, msgs) || RunRestarts(s, s', c, keep, msgs)
    ensures Grown(LedgerOf(s, u), LedgerOf(s', u))
  {
    hide Write, Grown, LedgerOf, Adding;
    var t := s.clients[c].thread;
    var h := History(s, t);
    if RunAppends(s, s', c, msgs) {
      WriteGrows(s, t, h + msgs, Adding(msgs), u);
    } else {
      WriteGrows(s, t, h[..keep] + msgs, Adding(msgs).(restarted := multiset(h[keep..])), u);
    }
  }

  lemma ReplacesGrow(s: State, s': State, c: nat, out: seq<Message>, u: string)
    requires RunReplaces(s, s', c, out)
    ensures Grown(LedgerOf(s, u), LedgerOf(s', u))
  {
    hide Write, Grown, Replacing;
    var t := s.clients[c].thread;
    WriteGrows(s, t, out, Replacing(History(s, t), s.clients[c].view.value.read, out), u);
  }

  lemma ReservedGrow(s: State, s': State, c: nat, human: Message, ai: Message, u: string)
    requires InjectWrites(s, s', c, human, ai) || CompactWrites(s, s', c)
    ensures Grown(LedgerOf(s, u), LedgerOf(s', u))
  {
    hide Write, Grown, Adding, Pair, Inject;
    var k := s.clients[c];
    if InjectWrites(s, s', c, human, ai) {
      WriteGrows(s, k.thread, History(s, k.thread) + [human, ai], Adding([human, ai]), u);
    } else {
      var read, plan := k.stage.read, k.stage.plan;
      WriteGrows(s, k.thread, Inject(plan.w, plan.summary, read, plan.cut),
          Adding(Pair(plan, read)).(summarised := multiset(read[..plan.cut])), u);
    }
  }

  lemma ReadMarks(s: State, s': State, c: nat)
    requires RunReads(s, s', c)
    ensures s'.clients[c].Running? && s'.clients[c].thread == s.clients[c].thread
    ensures s'.clients[c].view == Some(View(History(s, s.clients[c].thread), LedgerOf(s, s.clients[c].thread)))
  {
  }

  /** What a write-back erases was written after the time of `l`, if all that had been lost by its read was. */
  lemma LosesOnlyLaterStep(h: multiset<Message>, read: multiset<Message>, mark: Ledger, now: Ledger, later: Ledger,
          l: Ledger)
    requires h + mark.written + now.lost <= read + now.written + mark.lost
    requires LosesOnlyLater(l, now) && LosesOnlyLater(l, mark)
    requires now.written <= later.written && later.lost == now.lost + (h - read)
    ensures LosesOnlyLater(l, later)
  {
    forall m ensures (later.lost + l.written)[m] <= (later.written + l.lost)[m] {
      assert (h + mark.written + now.lost)[m] <= (read + now.written + mark.lost)[m];
      assert (now.lost + l.written)[m] <= (now.written + l.lost)[m];
      assert (mark.lost + l.written)[m] <= (mark.written + l.lost)[m];
    }
  }

  lemma StepLosesOnlyLater(s: State, s': State, t: string, l: Ledger)
    requires Inv(s) && Next(s, s') && LosesOnlyLaterSince(s, t, l)
    ensures LosesOnlyLater(l, LedgerOf(s', t))
  {
    hide Next, Kinds, LedgerOf, History, CountsOk, ReservationsOk, SnapshotsOk, Write, Replacing;
    StepKinds(s, s');
    LedgersGrow(s, s', t);
    if LedgerOf(s', t).lost == LedgerOf(s, t).lost {
      GrowsSafely(LedgerOf(s, t), LedgerOf(s', t), l);
    } else {
      OnlyReplacingLoses(s, s', t);
      var c, out :| RunReplaces(s, s', c, out) && s.clients[c].thread == t;
      ReplaceLosesLateArrivals(s, s', c, out);
      ReplacesView(s, s', c, out);
      var view := s.clients[c].view.value;
      assert ViewOk(s.clients[c], s) && Balanced(s, t);
      SinceThen(multiset(History(s, t)), LedgerOf(s, t), multiset(view.read), view.mark);
      LosesOnlyLaterStep(multiset(History(s, t)), multiset(view.read), view.mark, LedgerOf(s, t), LedgerOf(s', t), l);
    }
  }

  lemma ReplacesView(s: State, s': State, c: nat, out: seq<Message>)
    requires RunReplaces(s, s', c, out)
    ensures c in s.clients && s.clients[c].Running? && s.clients[c].view.Some?
  {
  }

  lemma GrowsSafely(now: Ledger, later: Ledger, l: Ledger)
    requires LosesOnlyLater(l, now) && now.written <= later.written && later.lost == now.lost
    ensures LosesOnlyLater(l, later)
  {
  }

  lemma StepKeepsSince(s: State, s': State, t: string, l: Ledger)
    requires Inv(s) && Next(s, s') && LosesOnlyLaterSince(s, t, l)
    ensures LosesOnlyLaterSince(s', t, l)
  {
    hide Next, Inv, LedgerOf, History, LosesOnlyLater, RunReads;
    StepLosesOnlyLater(s, s', t, l);
    forall c | c in s'.clients && s'.clients[c].Running? && s'.clients[c].thread == t && s'.clients[c].view.Some?
      ensures LosesOnlyLater(l, s'.clients[c].view.value.mark)
    {
      ViewOrigin(s, s', c);
      if RunReads(s, s', c) {
        ReadMarks(s, s', c);
      }
    }
  }

  lemma SinceNow(s: State, t: string)
    requires NoView(s, t)
    ensures LosesOnlyLaterSince(s, t, LedgerOf(s, t))
  {
  }

  lemma RunStep(run: seq<State>, k: nat)
    requires Run(run) && k + 1 < |run|
    ensures Next(run[k], run[k + 1])
  {
    hide Next;
  }

  lemma {:induction false} RunLosesOnlyLater(run: seq<State>, k: nat, j: nat, t: string)
    requires Run(run) && k <= j < |run| && NoView(run[k], t)
    ensures LosesOnlyLaterSince(run[j], t, LedgerOf(run[k], t))
  {
    hide Run, Next, Inv, NoView, LosesOnlyLaterSince, LedgerOf;
    if k == j {
      SinceNow(run[k], t);
    } else {
      RunLosesOnlyLater(run, k, j - 1, t);
      RunKeeps(run, j - 1);
      RunStep(run, j - 1);
      StepKeepsSince(run[j - 1], run[j], t, LedgerOf(run[k], t));
    }
  }

  /** Over every run: what a thread has been given by a time at which no run of it holds a view is never lost. */
  lemma WrittenWithoutViewsStays(run: seq<State>, k: nat, j: nat, t: string)
    requires Run(run) && k <= j < |run| && NoView(run[k], t)
    ensures LosesOnlyLater(LedgerOf(run[k], t), LedgerOf(run[j], t))
  {
    hide Run, NoView, LedgerOf, LosesOnlyLater;
    RunLosesOnlyLater(run, k, j, t);
  }

  /** Every copy of the message that was ever written to the thread has been lost. */
  predicate AllLost(s: State, t: string, m: Message) {
    0 < LedgerOf(s, t).written[m] == LedgerOf(s, t).lost[m]
  }

  ghost predicate LostLater(run: seq<State>, t: string, m: Message) {
    exists more: seq<State> :: run + more != [] && Run(run + more) && AllLost((run + more)[|run + more| - 1], t, m)
  }

  /** At the end of a run, a pair of new messages is injected. */
  ghost predicate EndsWithInjection(run: seq<State>, c: nat, human: Message, ai: Message) {
    && Run(run) && |run| >= 2
    && InjectWrites(run[|run| - 2], run[|run| - 1], c, human, ai)
    && var l := LedgerOf(run[|run| - 2], run[|run| - 2].clients[c].thread);
    && human !in l.written && ai !in l.written
  }

  /** What the injection leaves. */
  lemma Injected(s: State, s': State, c: nat, human: Message, ai: Message, t: string)
    requires Inv(s) && InjectWrites(s, s', c, human, ai) && s.clients[c].thread == t
    requires human !in LedgerOf(s, t).written && ai !in LedgerOf(s, t).written
    ensures s'.clients == s.clients
    ensures forall m :: m in {human, ai} ==>
        multiset(History(s', t))[m] == LedgerOf(s', t).written[m] == 1
        && LedgerOf(s', t).lost[m] == LedgerOf(s, t).written[m] == 0
  {
    hide CountsOk, ReservationsOk, SnapshotsOk, ViewsOk;
    assert Balanced(s, t);
    BagOfConcat(History(s, t), [human, ai]);
    forall m | m in {human, ai}
      ensures multiset(History(s', t))[m] == LedgerOf(s', t).written[m] == 1
        && LedgerOf(s', t).lost[m] == LedgerOf(s, t).written[m] == 0
    {
      assert multiset([human, ai])[m] == 1;
      assert LedgerOf(s, t).written[m] == 0;
    }
  }

  lemma StaysWithoutView(run: seq<State>, c: nat, human: Message, ai: Message, t: string, m: Message)
    requires EndsWithInjection(run, c, human, ai) && t == run[|run| - 2].clients[c].thread && m in {human, ai}
    requires NoView(run[|run| - 2], t)
    ensures !LostLater(run, t, m)
  {
    hide Run, Next, Inv, InjectWrites, LedgerOf, History;
    var s, s' := run[|run| - 2], run[|run| - 1];
    RunKeeps(run, |run| - 2);
    Injected(s, s', c, human, ai, t);
    forall more: seq<State> | Run(run + more) ensures !AllLost((run + more)[|run + more| - 1], t, m) {
      WrittenWithoutViewsStays(run + more, |run| - 1, |run + more| - 1, t);
      var l := LedgerOf((run + more)[|run + more| - 1], t);
      assert (l.lost + LedgerOf(s', t).written)[m] <= (l.written + LedgerOf(s', t).lost)[m];
    }
  }

  lemma ErasedByView(s: State, s': State, c: nat, t: string, m: Message)
    requires ViewsOk(s) && RunReplaces(s, s', c, []) && s.clients[c].thread == t
    requires multiset(History(s, t))[m] == LedgerOf(s, t).written[m] == 1 && LedgerOf(s, t).lost[m] == 0
    requires s.clients[c].view.value.mark.written[m] == 0
    ensures AllLost(s', t, m)
  {
    var view := s.clients[c].view.value;
    assert ViewOk(s.clients[c], s);
    assert multiset(view.read)[m] == 0 by {
      assert view.mark.written[m] == (multiset(view.read) + view.mark.summarised + view.mark.restarted + view.mark.shed
          + view.mark.lost)[m];
    }
    var due := Replacing(History(s, t), view.read, []);
    assert due.written[m] == 0 && due.lost[m] == 1;
    assert LedgerOf(s', t) == Charge(LedgerOf(s, t), due);
  }

  /** A run with a view writes an empty history back. */
  lemma ViewErases(s: State, d: nat, t: string, m: Message) returns (s': State)
    requires ViewsOk(s) && d in s.clients && s.clients[d].Running? && s.clients[d].thread == t
        && s.clients[d].view.Some?
    requires multiset(History(s, t))[m] == LedgerOf(s, t).written[m] == 1 && LedgerOf(s, t).lost[m] == 0
    requires s.clients[d].view.value.mark.written[m] == 0
    ensures Next(s, s') && AllLost(s', t, m)
  {
    hide Next, ViewsOk, LedgerOf, History, Charge, Replacing, AllLost;
    s' := Viewing(Write(s, t, [], Replacing(History(s, t), s.clients[d].view.value.read, [])), d, None);
    ErasedByView(s, s', d, t, m);
    Replaces(s, s', d, []);
  }

  lemma OldView(s: State, d: nat, t: string, m: Message)
    requires ViewsOk(s) && d in s.clients && s.clients[d].Running? && s.clients[d].thread == t
        && s.clients[d].view.Some? && LedgerOf(s, t).written[m] == 0
    ensures s.clients[d].view.value.mark.written[m] == 0
  {
    hide LedgerOf;
    assert ViewOk(s.clients[d], s);
  }

  lemma LostThroughView(run: seq<State>, c: nat, human: Message, ai: Message, t: string, m: Message)
    requires EndsWithInjection(run, c, human, ai) && t == run[|run| - 2].clients[c].thread && m in {human, ai}
    requires !NoView(run[|run| - 2], t)
    ensures LostLater(run, t, m)
  {
    hide Run, Next, InjectWrites, LedgerOf, History, CountsOk, ReservationsOk, SnapshotsOk, ViewsOk, Conserved, AllLost;
    var s, s' := run[|run| - 2], run[|run| - 1];
    RunKeeps(run, |run| - 2);
    RunKeeps(run, |run| - 1);
    Injected(s, s', c, human, ai, t);
    var d :| d in s.clients && s.clients[d].Running? && s.clients[d].thread == t && s.clients[d].view.Some?;
    OldView(s, d, t, m);
    var s'' := ViewErases(s', d, t, m);
    ExtendRun(run, s'');
    assert (run + [s''])[|run + [s'']| - 1] == s'';
  }

  lemma Replaces(s: State, s': State, c: nat, out: seq<Message>)
    requires RunReplaces(s, s', c, out)
    ensures Next(s, s')
  {
    hide RunReplaces;
  }

  lemma ExtendRun(run: seq<State>, s: State)
    requires Run(run) && Next(run[|run| - 1], s)
    ensures Run(run + [s])
  {
    hide Next, Init;
    var more := run + [s];
    forall i | 0 < i < |more| ensures Next(more[i - 1], more[i]) {
      if i < |run| {
        assert more[i - 1] == run[i - 1] && more[i] == run[i];
      }
    }
  }

  /** Exactly: each message of an injected pair can be lost later if and only if a run of the thread holds a view
      when the pair is injected. */
  lemma InjectionLostIffViewed(run: seq<State>, c: nat, human: Message, ai: Message, m: Message)
    requires EndsWithInjection(run, c, human, ai) && m in {human, ai}
    ensures c in run[|run| - 2].clients
    ensures var t := run[|run| - 2].clients[c].thread; LostLater(run, t, m) <==> !NoView(run[|run| - 2], t)
  {
    hide Run, LostLater, NoView, LedgerOf, Write;
    var t := run[|run| - 2].clients[c].thread;
    if NoView(run[|run| - 2], t) {
      StaysWithoutView(run, c, human, ai, t, m);
    } else {
      LostThroughView(run, c, human, ai, t, m);
    }
  }

  // ---------------------------------------------------------------- a losing interleaving

  /** The injected pair was all of the history and is gone, neither summarised nor dropped by an edit. */
  ghost predicate LosesInjection(run: seq<State>, t: string, human: Message, ai: Message) {
    && Run(run) && |run| == 6 && History(run[4], t) == [human, ai] && History(run[5], t) == []
    && LedgerOf(run[5], t).lost == multiset{human, ai}
    && LedgerOf(run[5], t).summarised == LedgerOf(run[5], t).restarted == multiset{}
  }

  ghost function LosingRun(t: string, human: Message, ai: Message): (run: seq<State>)
    ensures |run| == 6
  {
    var busy := Registry(map["s" := t], map["s" := 1], {});
    var s0 := State(Registry(map[], map[], {}), map[], map[], map[]);
    var s1 := Enter(s0, 0, Running(t, "s", None), busy);
    var s2 := Viewing(s1, 0, Some(View([], NOTHING)));
    var s3 := Enter(s2, 1, Injecting(t), busy.(mutations := {t}));
    var s4 := Write(s3, t, [human, ai], Adding([human, ai]));
    [s0, s1, s2, s3, s4, Viewing(Write(s4, t, [], Replacing([human, ai], [], [])), 0, None)]
  }

  /** A run reads, an injection is made, and the run writes its history back. */
  lemma InjectionCanBeLost(t: string, human: Message, ai: Message)
    requires human.Human? && ai.Ai? && ai.calls == []
    ensures LosesInjection(LosingRun(t, human, ai), t, human, ai)
  {
    var run := LosingRun(t, human, ai);
    var busy := Registry(map["s" := t], map["s" := 1], {});
    LosingSteps(run[0], run[1], run[2], run[3], run[4], run[5], t, human, ai, busy);
    hide *;
    RunOfSix(run);
    LosesIs(run, t, human, ai);
  }

  lemma LosesIs(run: seq<State>, t: string, human: Message, ai: Message)
    requires |run| == 6 && Run(run) && run[3].ledgers == map[]
        && run[4] == Write(run[3], t, [human, ai], Adding([human, ai]))
    requires 0 in run[4].clients && run[4].clients[0].Running?
    requires run[5] == Viewing(Write(run[4], t, [], Replacing([human, ai], [], [])), 0, None)
    ensures LosesInjection(run, t, human, ai)
  {
    hide Run, Write, Adding, Viewing, Replacing, History, LedgerOf;
    LosingEnd(run[3], run[4], run[5], t, human, ai);
  }

  lemma RunOfSix(run: seq<State>)
    requires |run| == 6 && Init(run[0])
    requires Next(run[0], run[1]) && Next(run[1], run[2]) && Next(run[2], run[3]) && Next(run[3], run[4])
        && Next(run[4], run[5])
    ensures Run(run)
  {
    hide Next, Init;
  }

  lemma LosingEnd(s3: State, s4: State, s5: State, t: string, human: Message, ai: Message)
    requires s3.ledgers == map[] && s4 == Write(s3, t, [human, ai], Adding([human, ai]))
    requires 0 in s4.clients && s4.clients[0].Running?
    requires s5 == Viewing(Write(s4, t, [], Replacing([human, ai], [], [])), 0, None)
    ensures History(s4, t) == [human, ai] && History(s5, t) == []
    ensures LedgerOf(s5, t).lost == multiset{human, ai}
    ensures LedgerOf(s5, t).summarised == LedgerOf(s5, t).restarted == multiset{}
  {
    assert multiset([human, ai]) == multiset{human, ai};
  }

  lemma LosingSteps(s0: State, s1: State, s2: State, s3: State, s4: State, s5: State, t: string, human: Message,
          ai: Message, busy: Registry)
    requires human.Human? && ai.Ai? && ai.calls == [] && busy == Registry(map["s" := t], map["s" := 1], {})
    requires s0 == State(Registry(map[], map[], {}), map[], map[], map[])
        && s1 == Enter(s0, 0, Running(t, "s", None), busy)
    requires s2 == Viewing(s1, 0, Some(View([], NOTHING)))
        && s3 == Enter(s2, 1, Injecting(t), busy.(mutations := {t}))
    requires s4 == Write(s3, t, [human, ai], Adding([human, ai]))
    requires s5 == Viewing(Write(s4, t, [], Replacing([human, ai], [], [])), 0, None)
    ensures Init(s0) && Next(s0, s1) && Next(s1, s2) && Next(s2, s3) && Next(s3, s4) && Next(s4, s5)
    ensures s3.ledgers == map[] && 0 in s4.clients && s4.clients[0].Running?
  {
    assert AcquireStep(s0.registry, busy, t, "s", Some("s"));
    assert StartRun(s0, s1, 0, t, "s");
    assert RunReads(s1, s2, 0);
    assert ReserveStep(s2.registry, busy.(mutations := {t}), t, false, true);
    assert StartReserved(s2, s3, 1, Injecting(t));
    assert History(s3, t) + [human, ai] == [human, ai];
    assert InjectWrites(s3, s4, 1, human, ai);
    assert RunReplaces(s4, s5, 0, []);
  }

  // ---------------------------------------------------------------- a compaction gets through

  /** On a thread that is idle and not reserved a compaction gets through, with whatever plan it produced, and leaves
      everything else as it was. */
  lemma CompactionGetsThrough(s: State, c: nat, t: string, plan: Plan) returns (states: seq<State>)
    requires c !in s.clients && CanReserve(s.registry, t, true) && Produced(History(s, t), plan)
    requires plan.cut < |History(s, t)|
    ensures |states| == 7 && states[0] == s && forall i :: 0 < i < |states| ==> Next(states[i - 1], states[i])
    ensures History(states[6], t) == Inject(plan.w, plan.summary, History(s, t), plan.cut)
    ensures states[6].clients == s.clients && states[6].registry == s.registry
    ensures forall u :: u != t ==> History(states[6], u) == History(s, u)
  {
    hide Next, Produced, Inject, LedgerOf, Charge, Pair;
    var h := History(s, t);
    var busy := s.registry.(mutations := s.registry.mutations + {t});
    var s1 := Enter(s, c, Compacting(t, Reserved), busy);
    var s2 := To(s1, c, HasRead(h));
    var s3 := To(s2, c, Summarised(h, plan));
    var s4 := To(s3, c, Checked(h, plan));
    var s5 := To(Write(s4, t, Inject(plan.w, plan.summary, h, plan.cut),
        Adding(Pair(plan, h)).(summarised := multiset(h[..plan.cut]))), c, Reserved);
    var s6 := Leave(s5, c, s.registry);
    assert ReserveStep(s.registry, busy, t, true, true);
    assert StartReserved(s, s1, c, Compacting(t, Reserved));
    assert CompactReads(s1, s2, c) && CompactSummarises(s2, s3, c, plan) && CompactChecks(s3, s4, c);
    assert CompactWrites(s4, s5, c);
    assert busy.mutations - {t} == s.registry.mutations;
    assert EndReservationStep(s5.registry, s.registry, t);
    assert EndReserved(s5, s6, c);
    CompactionSteps(s, s1, s2, s3, s4, s5, s6, c, plan);
    states := [s, s1, s2, s3, s4, s5, s6];
    assert s6.clients == s.clients;
  }

  lemma CompactionSteps(s0: State, s1: State, s2: State, s3: State, s4: State, s5: State, s6: State, c: nat, plan: Plan)
    requires exists k :: StartReserved(s0, s1, c, k)
    requires CompactReads(s1, s2, c) && CompactSummarises(s2, s3, c, plan) && CompactChecks(s3, s4, c)
    requires CompactWrites(s4, s5, c) && EndReserved(s5, s6, c)
    ensures Next(s0, s1) && Next(s1, s2) && Next(s2, s3) && Next(s3, s4) && Next(s4, s5) && Next(s5, s6)
  {
    hide StartReserved, CompactReads, CompactSummarises, CompactChecks, CompactWrites, EndReserved;
  }
}
