/**
 The event loop's lock: a flag and a queue of waiting coroutines.

 A coroutine is named by a number.  A waiter is pending, woken (its future has a result, and the
 coroutine has not run yet), or cancelled (its future is cancelled, and the coroutine has not run
 yet).  A woken coroutine may still be cancelled before it runs; it then unwinds like a cancelled one.
 */
module AsyncLocks {
  import opened Prelude

  datatype Status = Pending | Woken | Cancelled

  datatype Waiter = Waiter(scope: nat, status: Status)

  /** The owner and the queue. */
  datatype LockValue = LockValue(owner: Option<nat>, waiters: seq<Waiter>)

  predicate AllCancelled(ws: seq<Waiter>) {
    forall w :: w in ws ==> w.status.Cancelled?
  }

  /** Waking the first waiter, unless it is woken or cancelled already. */
  function WakeFirst(ws: seq<Waiter>): seq<Waiter> {
    if ws != [] && ws[0].status.Pending? then [Waiter(ws[0].scope, Woken)] + ws[1..] else ws
  }

  function Remove(ws: seq<Waiter>, s: nat): seq<Waiter> {
    if ws == [] then [] else if ws[0].scope == s then ws[1..] else [ws[0]] + Remove(ws[1..], s)
  }

  function MarkCancelled(ws: seq<Waiter>, s: nat): seq<Waiter> {
    if ws == [] then []
    else if ws[0].scope == s && ws[0].status.Pending? then [Waiter(s, Cancelled)] + ws[1..]
    else [ws[0]] + MarkCancelled(ws[1..], s)
  }

  function Acquired(v: LockValue, s: nat): LockValue {
    if v.owner.None? && AllCancelled(v.waiters) then v.(owner := Some(s))
    else v.(waiters := v.waiters + [Waiter(s, Pending)])
  }

  function Resumed(v: LockValue, s: nat): LockValue {
    LockValue(Some(s), Remove(v.waiters, s))
  }

  function Unwound(v: LockValue, s: nat): LockValue {
    var ws := Remove(v.waiters, s);
    v.(waiters := if v.owner.None? then WakeFirst(ws) else ws)
  }

  function Released(v: LockValue): LockValue {
    LockValue(None, WakeFirst(v.waiters))
  }

  ghost predicate DistinctScopes(ws: seq<Waiter>) {
    forall i, j :: 0 <= i < j < |ws| ==> ws[i].scope != ws[j].scope
  }

  ghost predicate TailAsleep(ws: seq<Waiter>) {
    forall i :: 0 < i < |ws| ==> !ws[i].status.Woken?
  }

  /** No coroutine appears twice, only the first waiter is ever woken, it is woken only while nobody owns
      the lock, and a free lock never leaves a pending waiter at the head of its queue. */
  ghost predicate LockOk(v: LockValue) {
    && DistinctScopes(v.waiters)
    && (v.owner.Some? ==> v.owner.value !in Scopes(v.waiters))
    && TailAsleep(v.waiters)
    && (v.waiters != [] ==> if v.owner.Some? then !v.waiters[0].status.Woken? else !v.waiters[0].status.Pending?)
  }

  ghost function Scopes(ws: seq<Waiter>): set<nat> {
    set w | w in ws :: w.scope
  }

  /** The coroutine inside and those waiting. */
  ghost function Users(v: LockValue): set<nat> {
    Scopes(v.waiters) + if v.owner.Some? then {v.owner.value} else {}
  }

  lemma ScopesCons(w: Waiter, ws: seq<Waiter>)
    ensures Scopes([w] + ws) == {w.scope} + Scopes(ws)
  {
    var all := [w] + ws;
    assert all[0] == w && forall x :: x in ws ==> x in all;
  }

  lemma {:induction false} RemoveScopes(ws: seq<Waiter>, s: nat)
    requires DistinctScopes(ws)
    ensures Scopes(Remove(ws, s)) == Scopes(ws) - {s}
  {
    if ws != [] {
      assert ws == [ws[0]] + ws[1..];
      ScopesCons(ws[0], ws[1..]);
      if ws[0].scope != s {
        assert DistinctScopes(ws[1..]);
        RemoveScopes(ws[1..], s);
        ScopesCons(ws[0], Remove(ws[1..], s));
      } else {
        ScopesAt(ws[1..], s);
      }
    }
  }

  lemma {:induction false} RemoveDistinct(ws: seq<Waiter>, s: nat)
    requires DistinctScopes(ws)
    ensures DistinctScopes(Remove(ws, s))
  {
    if ws != [] && ws[0].scope != s {
      assert DistinctScopes(ws[1..]);
      RemoveDistinct(ws[1..], s);
      RemoveScopes(ws[1..], s);
      ScopesAt(ws[1..], ws[0].scope);
      ScopesAt(Remove(ws[1..], s), ws[0].scope);
    }
  }

  lemma {:induction false} RemoveAsleep(ws: seq<Waiter>, s: nat)
    requires TailAsleep(ws)
    ensures TailAsleep(Remove(ws, s))
    ensures ws != [] && ws[0].scope != s ==> Remove(ws, s) != [] && Remove(ws, s)[0] == ws[0]
    ensures forall w :: w in Remove(ws, s) ==> w in ws
  {
    if ws != [] && ws[0].scope != s {
      assert TailAsleep(ws[1..]);
      RemoveAsleep(ws[1..], s);
      var r := Remove(ws, s);
      forall i | 0 < i < |r| ensures !r[i].status.Woken? {
        assert r[i] == Remove(ws[1..], s)[i - 1] && r[i] in Remove(ws[1..], s);
        assert r[i] in ws[1..];
      }
    }
  }

  /** Cancelling a pending waiter marks it, and nothing else. */
  lemma {:induction false} MarkMeets(ws: seq<Waiter>, s: nat)
    requires DistinctScopes(ws)
    ensures var r := MarkCancelled(ws, s);
            |r| == |ws| && forall i :: 0 <= i < |ws| ==>
                r[i] == if ws[i].scope == s && ws[i].status.Pending? then Waiter(s, Cancelled) else ws[i]
  {
    if ws != [] {
      assert DistinctScopes(ws[1..]);
      MarkMeets(ws[1..], s);
    }
  }

  // ---------------------------------------------------------------- first come, first served

  function Names(ws: seq<Waiter>): seq<nat> {
    seq(|ws|, i requires 0 <= i < |ws| => ws[i].scope)
  }

  /** `s` is gone, and the others stay in their order. */
  ghost predicate WithoutOne(xs: seq<nat>, r: seq<nat>, s: nat) {
    exists k :: 0 <= k < |xs| && xs[k] == s && r == xs[..k] + xs[k + 1..]
  }

  lemma NamesCons(ws: seq<Waiter>)
    requires ws != []
    ensures Names(ws) == [ws[0].scope] + Names(ws[1..])
  {
  }

  lemma WithoutLater(x: nat, xs: seq<nat>, r: seq<nat>, s: nat)
    requires WithoutOne(xs, r, s)
    ensures WithoutOne([x] + xs, [x] + r, s)
  {
    var k :| 0 <= k < |xs| && xs[k] == s && r == xs[..k] + xs[k + 1..];
    var all := [x] + xs;
    assert all[..k + 1] == [x] + xs[..k] && all[k + 1 + 1..] == xs[k + 1..];
    assert [x] + r == all[..k + 1] + all[k + 1 + 1..];
    assert all[k + 1] == s;
  }

  lemma {:induction false} RemoveNames(ws: seq<Waiter>, s: nat)
    requires s in Scopes(ws)
    ensures WithoutOne(Names(ws), Names(Remove(ws, s)), s)
  {
    NamesCons(ws);
    if ws[0].scope == s {
      assert Names(ws)[..0] + Names(ws)[0 + 1..] == Names(ws[1..]);
    } else {
      assert ws == [ws[0]] + ws[1..];
      ScopesCons(ws[0], ws[1..]);
      RemoveNames(ws[1..], s);
      NamesCons([ws[0]] + Remove(ws[1..], s));
      hide Names, WithoutOne;
      WithoutLater(ws[0].scope, Names(ws[1..]), Names(Remove(ws[1..], s)), s);
      assert ([ws[0]] + Remove(ws[1..], s))[1..] == Remove(ws[1..], s);
    }
  }

  /** Coroutines queue up at the end, keep their order, and only the first one is ever woken or takes the lock after
      waiting: first come, first served, but for those that are cancelled. */
  lemma QueueIsFair(v: LockValue, s: nat)
    requires LockOk(v)
    ensures Acquired(v, s).owner == v.owner ==> Names(Acquired(v, s).waiters) == Names(v.waiters) + [s]
    ensures Acquired(v, s).owner != v.owner ==> Acquired(v, s) == v.(owner := Some(s))
    ensures Acquired(v, s).owner != v.owner <==>
              v.owner == None && forall i :: 0 <= i < |v.waiters| ==> v.waiters[i].status == Cancelled
    ensures s in Scopes(v.waiters) ==> WithoutOne(Names(v.waiters), Names(Resumed(v, s).waiters), s)
    ensures s in Scopes(v.waiters) ==> WithoutOne(Names(v.waiters), Names(Unwound(v, s).waiters), s)
    ensures Names(Released(v).waiters) == Names(v.waiters) == Names(MarkCancelled(v.waiters, s))
    ensures forall i :: 0 < i < |v.waiters| ==> !v.waiters[i].status.Woken?
  {
    hide Remove;
    MarkMeets(v.waiters, s);
    if s in Scopes(v.waiters) {
      RemoveNames(v.waiters, s);
      WakeNames(Remove(v.waiters, s));
    }
    WakeNames(v.waiters);
  }

  lemma WakeNames(ws: seq<Waiter>)
    ensures Names(WakeFirst(ws)) == Names(ws)
  {
  }

  lemma ScopesAt(ws: seq<Waiter>, s: nat)
    ensures s in Scopes(ws) <==> exists i :: 0 <= i < |ws| && ws[i].scope == s
  {
  }

  lemma FreshLockOk()
    ensures LockOk(LockValue(None, [])) && Users(LockValue(None, [])) == {}
  {
  }

  lemma AcquireKeeps(v: LockValue, s: nat)
    requires LockOk(v) && s !in Users(v)
    ensures LockOk(Acquired(v, s)) && Users(Acquired(v, s)) == Users(v) + {s}
  {
    assert forall i :: 0 <= i < |v.waiters| ==> v.waiters[i] in v.waiters;
    var r := Acquired(v, s);
    if r.owner == v.owner {
      assert Scopes(r.waiters) == Scopes(v.waiters) + {s};
    }
  }

  lemma ResumeKeeps(v: LockValue, s: nat)
    requires LockOk(v) && v.waiters != [] && v.waiters[0] == Waiter(s, Woken)
    ensures LockOk(Resumed(v, s)) && Users(Resumed(v, s)) == Users(v)
    ensures v.owner.None?
  {
    RemoveScopes(v.waiters, s);
    RemoveDistinct(v.waiters, s);
    RemoveAsleep(v.waiters, s);
    assert Remove(v.waiters, s) == v.waiters[1..];
    assert s in Scopes(v.waiters) by { assert v.waiters[0] in v.waiters; }
  }

  lemma WakeMeets(ws: seq<Waiter>)
    requires DistinctScopes(ws) && TailAsleep(ws)
    ensures var r := WakeFirst(ws);
            && DistinctScopes(r) && TailAsleep(r) && Scopes(r) == Scopes(ws)
            && (ws != [] ==> r != [] && !r[0].status.Pending?)
  {
    var r := WakeFirst(ws);
    assert forall i :: 0 <= i < |ws| ==> r[i].scope == ws[i].scope;
    forall s ensures s in Scopes(r) <==> s in Scopes(ws) {
      ScopesAt(r, s);
      ScopesAt(ws, s);
    }
  }

  lemma UnwindKeeps(v: LockValue, s: nat)
    requires LockOk(v) && s in Scopes(v.waiters)
    ensures LockOk(Unwound(v, s)) && Users(Unwound(v, s)) == Users(v) - {s}
    ensures Unwound(v, s).owner == v.owner
  {
    var ws := Remove(v.waiters, s);
    RemoveScopes(v.waiters, s);
    RemoveDistinct(v.waiters, s);
    RemoveAsleep(v.waiters, s);
    WakeMeets(ws);
    if v.owner.Some? && ws != [] {
      assert forall i :: 0 <= i < |v.waiters| ==> !v.waiters[i].status.Woken?;
      assert ws[0] in v.waiters;
    }
  }

  lemma ReleaseKeeps(v: LockValue)
    requires LockOk(v) && v.owner.Some?
    ensures LockOk(Released(v)) && Users(Released(v)) == Users(v) - {v.owner.value}
  {
    WakeMeets(v.waiters);
  }

  lemma CancelKeeps(v: LockValue, s: nat)
    requires LockOk(v)
    ensures var r := v.(waiters := MarkCancelled(v.waiters, s)); LockOk(r) && Users(r) == Users(v)
  {
    MarkMeets(v.waiters, s);
    var ws := MarkCancelled(v.waiters, s);
    assert forall i :: 0 <= i < |ws| ==> ws[i].scope == v.waiters[i].scope;
    forall x ensures x in Scopes(ws) <==> x in Scopes(v.waiters) {
      ScopesAt(ws, x);
      ScopesAt(v.waiters, x);
    }
  }

  /** No wake-up is lost: on a free lock with waiters, the first of them is about to run, and will take
      the lock or wake the next one. */
  lemma NoLostWakeup(v: LockValue)
    requires LockOk(v) && v.owner.None? && v.waiters != []
    ensures var s := v.waiters[0].scope;
            || (v.waiters[0].status.Woken? && Resumed(v, s).owner == Some(s))
            || (v.waiters[0].status.Cancelled?
                && (Unwound(v, s).waiters == [] || !Unwound(v, s).waiters[0].status.Pending?))
  {
    var s := v.waiters[0].scope;
    RemoveDistinct(v.waiters, s);
    RemoveAsleep(v.waiters, s);
    WakeMeets(Remove(v.waiters, s));
  }

  class AsyncLock {
    var locked: bool
    var waiters: seq<Waiter>
    ghost var owner: Option<nat>

    ghost predicate Valid()
      reads this
    {
      locked == owner.Some? && LockOk(Value())
    }

    ghost function Value(): LockValue
      reads this
    {
      LockValue(owner, waiters)
    }

    constructor ()
      ensures Valid() && Value() == LockValue(None, [])
    {
      locked, waiters, owner := false, [], None;
    }

    /** The part of acquire before its await: take a free lock, or queue up. */
    method Acquire(s: nat) returns (entered: bool)
      requires Valid() && s !in Users(Value())
      modifies this
      ensures Valid() && Value() == Acquired(old(Value()), s)
      ensures entered <==> owner == Some(s)
    {
      AcquireKeeps(Value(), s);
      entered := !locked && AllCancelled(waiters);
      if entered {
        locked, owner := true, Some(s);
      } else {
        waiters := waiters + [Waiter(s, Pending)];
      }
    }

    /** The part after the await, when the future was given a result. */
    method Resume(s: nat)
      requires Valid() && waiters != [] && waiters[0] == Waiter(s, Woken)
      modifies this
      ensures Valid() && Value() == Resumed(old(Value()), s) && old(owner) == None
    {
      ResumeKeeps(Value(), s);
      waiters := Remove(waiters, s);
      locked, owner := true, Some(s);
    }

    /** The part after the await, when the coroutine was cancelled. */
    method Unwind(s: nat)
      requires Valid() && s in Scopes(waiters)
      modifies this
      ensures Valid() && Value() == Unwound(old(Value()), s)
    {
      UnwindKeeps(Value(), s);
      waiters := Remove(waiters, s);
      if !locked {
        waiters := WakeFirst(waiters);
      }
    }

    method Cancel(s: nat)
      requires Valid()
      modifies this
      ensures Valid() && Value() == old(Value()).(waiters := MarkCancelled(old(waiters), s))
    {
      CancelKeeps(Value(), s);
      waiters := MarkCancelled(waiters, s);
    }

    method Release()
      requires Valid() && locked
      modifies this
      ensures Valid() && Value() == Released(old(Value()))
    {
      ReleaseKeeps(Value());
      locked, owner := false, None;
      waiters := WakeFirst(waiters);
    }
  }
}
