/**
 The table of keyed locks behind `operation_scope`.

 Lock objects are made when a key is first used and dropped from the table with its last user.  Each
 coroutine keeps its own reference to the lock object that it found, and waits on, takes and releases
 that one; nothing but the invariant says that the table still holds the same object.  Objects are
 named by handles and live in `heap`.
 */
module LockTable {
  import opened Prelude
  import opened AsyncLocks

  /** The key that a coroutine uses, and its own reference to a lock object. */
  datatype Use = Use(key: string, lock: nat)

  datatype Table = Table(locks: map<string, nat>, users: map<string, nat>, uses: map<nat, Use>, heap: map<nat,
      LockValue>, next: nat)

  const EMPTY := Table(map[], map[], map[], map[], 0)

  ghost function UsersOf(t: Table, key: string): set<nat> {
    set s | s in t.uses && t.uses[s].key == key
  }

  /** The coroutine is inside its scope: it owns the lock object that it refers to. */
  predicate InScope(t: Table, s: nat) {
    s in t.uses && t.uses[s].lock in t.heap && t.heap[t.uses[s].lock].owner == Some(s)
  }

  /** A key's count is the number of coroutines that hold it or wait for it, and is never zero. */
  ghost predicate CountsOk(t: Table) {
    && t.locks.Keys == t.users.Keys
    && forall key :: key in t.users ==> t.users[key] == |UsersOf(t, key)| > 0
  }

  /** Every user of a key refers to the object that the table holds for it. */
  ghost predicate SharedOk(t: Table) {
    forall s :: s in t.uses ==> t.uses[s].key in t.locks && t.locks[t.uses[s].key] == t.uses[s].lock
  }

  /** Each key's object is proper, is used by exactly the key's users, and belongs to no other key. */
  ghost predicate ObjectsOk(t: Table) {
    && (forall key :: key in t.locks ==> ObjectOk(t, key))
    && (forall j, k :: j in t.locks && k in t.locks && t.locks[j] == t.locks[k] ==> j == k)
  }

  ghost predicate ObjectOk(t: Table, key: string)
    requires key in t.locks
  {
    && t.locks[key] < t.next && t.locks[key] in t.heap
    && LockOk(t.heap[t.locks[key]])
    && Users(t.heap[t.locks[key]]) == UsersOf(t, key)
  }

  ghost predicate TableOk(t: Table) {
    CountsOk(t) && SharedOk(t) && ObjectsOk(t)
  }

  // ---------------------------------------------------------------- the segments of a scope

  /** A lock object is made unless the key has one. */
  function SetDefault(t: Table, key: string): Table {
    if key in t.locks then t
    else t.(locks := t.locks[key := t.next], heap := t.heap[t.next := LockValue(None, [])], next := t.next + 1)
  }

  /** The first segment, up to the await of the lock. */
  function Entered(t: Table, s: nat, key: string): Table {
    var t1 := SetDefault(t, key);
    var lock := t1.locks[key];
    if lock in t1.heap then
      t1.(users := t1.users[key := (if key in t1.users then t1.users[key] else 0) + 1],
          uses := t1.uses[s := Use(key, lock)],
          heap := t1.heap[lock := Acquired(t1.heap[lock], s)])
    else t1
  }

  function WithLock(t: Table, s: nat, v: LockValue): Table
    requires s in t.uses
  {
    t.(heap := t.heap[t.uses[s].lock := v])
  }

  /** The finally clause: the count goes down, and the last user takes the key out of the table. */
  function Left(t: Table, s: nat): Table
    requires s in t.uses && t.uses[s].key in t.users && t.users[t.uses[s].key] > 0
  {
    var key := t.uses[s].key;
    var t1 := t.(users := t.users[key := t.users[key] - 1], uses := t.uses - {s});
    if t1.users[key] == 0 then t1.(users := t1.users - {key}, locks := t1.locks - {key}) else t1
  }

  lemma OwnLock(t: Table, s: nat)
    requires TableOk(t) && s in t.uses
    ensures t.uses[s].key in t.locks && t.uses[s].key in t.users && t.users[t.uses[s].key] > 0
    ensures t.uses[s].lock in t.heap && LockOk(t.heap[t.uses[s].lock])
    ensures s in Users(t.heap[t.uses[s].lock])
  {
    assert ObjectOk(t, t.uses[s].key);
    assert s in UsersOf(t, t.uses[s].key);
  }

  lemma SetDefaultKeeps(t: Table, key: string)
    requires TableOk(t)
    ensures ObjectsOk(SetDefault(t, key)) && SharedOk(SetDefault(t, key))
  {
    hide LockOk, Users;
    var t1 := SetDefault(t, key);
    forall k | k in t1.locks ensures ObjectOk(t1, k) {
      if k in t.locks {
        assert ObjectOk(t, k);
      } else {
        FreshLockOk();
        assert UsersOf(t, key) == {};
      }
      assert UsersOf(t1, k) == UsersOf(t, k);
    }
    forall j, k | j in t1.locks && k in t1.locks && t1.locks[j] == t1.locks[k] ensures j == k {
      assert j in t.locks ==> ObjectOk(t, j);
      assert k in t.locks ==> ObjectOk(t, k);
    }
  }

  lemma UsersAfterEnter(t: Table, r: Table, s: nat, key: string, lock: nat)
    requires s !in t.uses && r.uses == t.uses[s := Use(key, lock)]
    ensures UsersOf(r, key) == UsersOf(t, key) + {s} && s !in UsersOf(t, key)
    ensures forall k :: k != key ==> UsersOf(r, k) == UsersOf(t, k)
  {
  }

  lemma EnterKeepsObjects(t1: Table, s: nat, key: string, r: Table)
    requires ObjectsOk(t1) && SharedOk(t1) && s !in t1.uses && key in t1.locks && t1.locks[key] in t1.heap
    requires r.locks == t1.locks && r.next == t1.next && r.uses == t1.uses[s := Use(key, t1.locks[key])]
    requires r.heap == t1.heap[t1.locks[key] := Acquired(t1.heap[t1.locks[key]], s)]
    ensures ObjectsOk(r) && SharedOk(r)
  {
    hide LockOk, Users;
    UsersAfterEnter(t1, r, s, key, t1.locks[key]);
    forall k | k in r.locks ensures ObjectOk(r, k) {
      assert ObjectOk(t1, k);
      if k == key {
        AcquireKeeps(t1.heap[t1.locks[key]], s);
      }
    }
  }

  lemma EnterKeepsCounts(t: Table, s: nat, key: string, lock: nat, r: Table)
    requires CountsOk(t) && SharedOk(t) && s !in t.uses && r.uses == t.uses[s := Use(key, lock)]
    requires r.users == t.users[key := (if key in t.users then t.users[key] else 0) + 1]
    requires r.locks.Keys == t.locks.Keys + {key}
    ensures CountsOk(r)
  {
    UsersAfterEnter(t, r, s, key, lock);
    if key !in t.users {
      assert UsersOf(t, key) == {};
    }
  }

  lemma EnterKeeps(t: Table, s: nat, key: string)
    requires TableOk(t) && s !in t.uses
    ensures TableOk(Entered(t, s, key))
  {
    hide LockOk, Users, Acquired, CountsOk, SharedOk;
    var t1, r := SetDefault(t, key), Entered(t, s, key);
    SetDefaultKeeps(t, key);
    assert ObjectOk(t1, key);
    EnterKeepsObjects(t1, s, key, r);
    EnterKeepsCounts(t, s, key, t1.locks[key], r);
  }

  /** Changing one lock object without changing its users keeps the table. */
  lemma WithLockKeeps(t: Table, s: nat, v: LockValue)
    requires TableOk(t) && s in t.uses && LockOk(v)
    requires Users(v) == UsersOf(t, t.uses[s].key)
    ensures TableOk(WithLock(t, s, v))
  {
    hide LockOk, Users;
    var r := WithLock(t, s, v);
    forall k ensures UsersOf(r, k) == UsersOf(t, k) {
    }
    forall k | k in r.locks ensures ObjectOk(r, k) {
      assert ObjectOk(t, k);
    }
  }

  lemma UsersAfterLeave(t: Table, r: Table, s: nat)
    requires s in t.uses && r.uses == t.uses - {s}
    ensures var key := t.uses[s].key; UsersOf(r, key) == UsersOf(t, key) - {s} && s in UsersOf(t, key)
    ensures forall k :: k != t.uses[s].key ==> UsersOf(r, k) == UsersOf(t, k)
  {
  }

  lemma LeaveKeepsObjects(t: Table, s: nat, v: LockValue, r: Table)
    requires TableOk(t) && s in t.uses && LockOk(v) && Users(v) == UsersOf(t, t.uses[s].key) - {s}
    requires r.uses == t.uses - {s} && r.heap == t.heap[t.uses[s].lock := v] && r.next == t.next
    requires r.locks == if UsersOf(r, t.uses[s].key) == {} then t.locks - {t.uses[s].key} else t.locks
    ensures ObjectsOk(r) && SharedOk(r)
  {
    hide LockOk, Users;
    var key := t.uses[s].key;
    UsersAfterLeave(t, r, s);
    forall k | k in r.locks ensures ObjectOk(r, k) {
      assert ObjectOk(t, k);
    }
    forall x | x in r.uses ensures r.uses[x].key in r.locks && r.locks[r.uses[x].key] == r.uses[x].lock {
      if r.uses[x].key == key {
        assert x in UsersOf(r, key);
      }
    }
  }

  /** A coroutine that no longer uses its lock object leaves the table. */
  lemma LeaveKeeps(t: Table, s: nat, v: LockValue)
    requires TableOk(t) && s in t.uses && LockOk(v)
    requires t.uses[s].key in t.users && t.users[t.uses[s].key] > 0
    requires Users(v) == UsersOf(t, t.uses[s].key) - {s}
    ensures TableOk(Left(WithLock(t, s, v), s))
  {
    hide LockOk, Users, UsersOf, ObjectsOk, SharedOk, ObjectOk;
    var r := Left(WithLock(t, s, v), s);
    UsersAfterLeave(t, r, s);
    assert |UsersOf(r, t.uses[s].key)| == |UsersOf(t, t.uses[s].key)| - 1;
    LeaveKeepsCounts(t, s, v);
    LeaveKeepsObjects(t, s, v, r);
  }

  lemma LeaveKeepsCounts(t: Table, s: nat, v: LockValue)
    requires CountsOk(t) && s in t.uses && t.uses[s].key in t.users && t.users[t.uses[s].key] > 0
    ensures CountsOk(Left(WithLock(t, s, v), s))
    ensures var r := Left(WithLock(t, s, v), s);
            r.locks == if UsersOf(r, t.uses[s].key) == {} then t.locks - {t.uses[s].key} else t.locks
  {
    hide UsersOf;
    var r := Left(WithLock(t, s, v), s);
    UsersAfterLeave(t, r, s);
    assert |UsersOf(r, t.uses[s].key)| == |UsersOf(t, t.uses[s].key)| - 1;
  }

  /** All coroutines that are inside the scope of one key are the same coroutine. */
  lemma MutualExclusion(t: Table, a: nat, b: nat)
    requires TableOk(t) && InScope(t, a) && InScope(t, b) && t.uses[a].key == t.uses[b].key
    ensures a == b
  {
    assert t.uses[a].lock == t.uses[b].lock;
  }

  // ---------------------------------------------------------------- runs

  datatype Step =
    | Enter(s: nat, key: string)
    | Resume(s: nat)
    | Cancel(s: nat)
    | Unwind(s: nat)
    | Exit(s: nat)

  /** When the event loop can run a segment. */
  predicate Enabled(t: Table, e: Step) {
    match e
    case Enter(s, key) => s !in t.uses
    case Resume(s) =>
      s in t.uses && t.uses[s].lock in t.heap &&
      var ws := t.heap[t.uses[s].lock].waiters;
      ws != [] && ws[0] == Waiter(s, Woken)
    case Cancel(s) => s in t.uses
    case Unwind(s) => s in t.uses && t.uses[s].lock in t.heap && t.uses[s].key in t.users
        && t.users[t.uses[s].key] > 0 &&
                      exists i :: 0 <= i < |t.heap[t.uses[s].lock].waiters|
                          && t.heap[t.uses[s].lock].waiters[i].scope == s &&
                                  !t.heap[t.uses[s].lock].waiters[i].status.Pending?
    case Exit(s) => InScope(t, s) && t.uses[s].key in t.users && t.users[t.uses[s].key] > 0
  }

  function Apply(t: Table, e: Step): Table
    requires Enabled(t, e)
  {
    match e
    case Enter(s, key) => Entered(t, s, key)
    case Resume(s) => WithLock(t, s, Resumed(t.heap[t.uses[s].lock], s))
    case Cancel(s) =>
      if t.uses[s].lock in t.heap then
        var v := t.heap[t.uses[s].lock];
        WithLock(t, s, v.(waiters := MarkCancelled(v.waiters, s)))
      else t
    case Unwind(s) => Left(WithLock(t, s, Unwound(t.heap[t.uses[s].lock], s)), s)
    case Exit(s) => Left(WithLock(t, s, Released(t.heap[t.uses[s].lock])), s)
  }

  lemma ApplyKeeps(t: Table, e: Step)
    requires TableOk(t) && Enabled(t, e)
    ensures TableOk(Apply(t, e))
  {
    if e.Enter? {
      EnterKeeps(t, e.s, e.key);
    } else {
      var s := e.s;
      OwnLock(t, s);
      var v := t.heap[t.uses[s].lock];
      assert ObjectOk(t, t.uses[s].key);
      match e
      case Resume(_) =>
        ResumeKeeps(v, s);
        WithLockKeeps(t, s, Resumed(v, s));
      case Cancel(_) =>
        CancelKeeps(v, s);
        WithLockKeeps(t, s, v.(waiters := MarkCancelled(v.waiters, s)));
      case Unwind(_) =>
        ScopesAt(v.waiters, s);
        UnwindKeeps(v, s);
        LeaveKeeps(t, s, Unwound(v, s));
      case Exit(_) =>
        ReleaseKeeps(v);
        LeaveKeeps(t, s, Released(v));
    }
  }

  ghost predicate Run(run: seq<Table>, steps: seq<Step>) {
    && |run| == |steps| + 1 && run[0] == EMPTY
    && forall i :: 0 <= i < |steps| ==> Enabled(run[i], steps[i]) && run[i + 1] == Apply(run[i], steps[i])
  }

  /** In every run, including ones with cancelled waiters, the table is exact and exclusive. */
  lemma {:induction false} RunKeeps(run: seq<Table>, steps: seq<Step>, i: nat)
    requires Run(run, steps) && i < |run|
    ensures TableOk(run[i])
    ensures forall a, b :: InScope(run[i], a) && InScope(run[i], b) && run[i].uses[a].key == run[i].uses[b].key ==>
        a == b
  {
    if i > 0 {
      RunKeeps(run, steps, i - 1);
      ApplyKeeps(run[i - 1], steps[i - 1]);
    }
    forall a, b | InScope(run[i], a) && InScope(run[i], b) && run[i].uses[a].key == run[i].uses[b].key ensures a == b {
      MutualExclusion(run[i], a, b);
    }
  }

  /** A key that nobody is inside of never strands its waiters: one of them can run at once. */
  lemma OwnerIsInside(t: Table, key: string)
    requires TableOk(t) && key in t.locks
    ensures t.locks[key] in t.heap && LockOk(t.heap[t.locks[key]])
        && Users(t.heap[t.locks[key]]) == UsersOf(t, key) != {}
    ensures t.heap[t.locks[key]].owner.Some? ==>
              t.heap[t.locks[key]].owner.value in UsersOf(t, key) && InScope(t, t.heap[t.locks[key]].owner.value)
    ensures forall s :: s in UsersOf(t, key) ==> s in t.uses && t.uses[s].lock == t.locks[key]
  {
    hide LockOk;
    assert ObjectOk(t, key);
  }

  lemma FirstWaiter(v: LockValue)
    requires LockOk(v) && v.owner.None? && Users(v) != {}
    ensures v.waiters != [] && !v.waiters[0].status.Pending? && v.waiters[0].scope in Users(v)
  {
    assert v.waiters != [];
    assert v.waiters[0] in v.waiters;
  }

  /** A key that nobody is inside of never strands its waiters: one of them can run at once. */
  lemma SomeWaiterRuns(t: Table, key: string)
    requires TableOk(t) && key in t.locks && forall s :: s in UsersOf(t, key) ==> !InScope(t, s)
    ensures exists s :: s in UsersOf(t, key) && (Enabled(t, Resume(s)) || Enabled(t, Unwind(s)))
  {
    hide TableOk, LockOk, Users, UsersOf, InScope;
    OwnerIsInside(t, key);
    var v := t.heap[t.locks[key]];
    FirstWaiter(v);
    var w := v.waiters[0];
    OwnLock(t, w.scope);
    assert w.status.Woken? || w.status.Cancelled?;
    assert v.waiters[0].scope == w.scope && !v.waiters[0].status.Pending?;
    assert Enabled(t, Resume(w.scope)) || Enabled(t, Unwind(w.scope));
  }

  /** Anybody may come: into a scope that nobody uses at once, else to wait while somebody is inside. */
  lemma EveryoneMayEnter(t: Table, s: nat, key: string)
    requires TableOk(t) && s !in t.uses
    ensures Enabled(t, Enter(s, key)) && s in Apply(t, Enter(s, key)).uses && Apply(t, Enter(s, key)).uses[s].key == key
    ensures key !in t.locks ==> InScope(Apply(t, Enter(s, key)), s)
    ensures (exists a :: InScope(t, a) && t.uses[a].key == key) ==> !InScope(Apply(t, Enter(s, key)), s)
  {
    if key in t.locks {
      assert ObjectOk(t, key);
      if a :| InScope(t, a) && t.uses[a].key == key {
        assert t.uses[a].lock == t.locks[key] && t.heap[t.locks[key]].owner == Some(a);
      }
    }
  }

  /** Whoever is inside may leave, and is gone then; whoever waits may be cancelled, and can then give up. */
  lemma EveryoneMayLeave(t: Table, s: nat)
    requires TableOk(t) && s in t.uses
    ensures InScope(t, s) ==> Enabled(t, Exit(s)) && s !in Apply(t, Exit(s)).uses
    ensures !InScope(t, s) ==>
        Enabled(t, Cancel(s))
        && Enabled(Apply(t, Cancel(s)), Unwind(s)) && s !in Apply(Apply(t, Cancel(s)), Unwind(s)).uses
  {
    OwnLock(t, s);
    if !InScope(t, s) {
      WaiterGivesUp(t, s);
    }
  }

  lemma WaiterGivesUp(t: Table, s: nat)
    requires TableOk(t) && s in t.uses && !InScope(t, s)
    ensures Enabled(t, Cancel(s)) && Enabled(Apply(t, Cancel(s)), Unwind(s))
    ensures s !in Apply(Apply(t, Cancel(s)), Unwind(s)).uses
  {
    hide TableOk, LockOk;
    OwnLock(t, s);
    var v := t.heap[t.uses[s].lock];
    CancelMarks(v, s);
    var t' := Apply(t, Cancel(s));
    assert t'.uses == t.uses && t'.users == t.users;
    assert t'.heap[t'.uses[s].lock].waiters == MarkCancelled(v.waiters, s);
  }

  lemma CancelMarks(v: LockValue, s: nat)
    requires LockOk(v) && s in Users(v) && v.owner != Some(s)
    ensures var ws := MarkCancelled(v.waiters, s);
            exists i :: 0 <= i < |ws| && ws[i].scope == s && !ws[i].status.Pending?
  {
    ScopesAt(v.waiters, s);
    var i :| 0 <= i < |v.waiters| && v.waiters[i].scope == s;
    MarkMeets(v.waiters, s);
    assert MarkCancelled(v.waiters, s)[i].scope == s;
  }
}
