/** The tables of the browser service as the repository updates them, row by row. */
module BrowserRepository {
  import opened Prelude
  import opened BrowserModel

  class Repository {
    var rows: map<Call, Row>
    /** The calls with a row, in the order of their row ids. */
    var order: seq<Call>
    var bindings: map<string, Option<string>>
    /** Each image's conversation. */
    var artifacts: map<string, string>

    ghost predicate Valid()
      reads this
    {
      Distinct(order) && forall c :: c in order <==> c in rows
    }

    constructor ()
      ensures Valid() && rows == map[] && order == [] && bindings == map[] && artifacts == map[]
    {
      rows, order, bindings, artifacts := map[], [], map[], map[];
    }

    method Invocation(c: Call) returns (row: Option<Row>)
      ensures row == if c in rows then Some(rows[c]) else None
    {
      row := if c in rows then Some(rows[c]) else None;
    }

    /** A new row takes the fingerprint; an existing one only changes its status and result. */
    method Record(c: Call, fp: string, status: RowStatus)
      requires Valid()
      modifies this`rows, this`order
      ensures Valid() && rows == Recorded(old(rows), c, Row(fp, status))
      ensures order == if c in old(rows) then old(order) else old(order) + [c]
      ensures c in rows && rows[c] == Row(if c in old(rows) then old(rows)[c].fp else fp, status)
      ensures forall d :: d != c ==> (d in rows <==> d in old(rows)) && (d in rows ==> rows[d] == old(rows)[d])
    {
      if c !in rows {
        rows := rows[c := Row(fp, status)];
        order := order + [c];
      } else {
        rows := rows[c := rows[c].(status := status)];
      }
    }

    /** The newest row of the thread that waits for the user. */
    method PendingHandoff(thread: string) returns (newest: Option<Call>)
      requires Valid()
      ensures newest.None? <==> forall c :: c in rows && c.thread == thread ==> !rows[c].status.HandedOff?
      ensures newest.Some? ==>
                newest.value in rows && newest.value.thread == thread && rows[newest.value].status.HandedOff?
      ensures newest.Some? ==> exists k ::
                && 0 <= k < |order| && order[k] == newest.value && Pending(rows, thread, order[k])
                && forall j :: k < j < |order| ==> !Pending(rows, thread, order[j])
    {
      var k := |order|;
      while k > 0
        invariant 0 <= k <= |order|
        invariant forall j :: k <= j < |order| ==> !Pending(rows, thread, order[j])
      {
        k := k - 1;
        if Pending(rows, thread, order[k]) {
          return Some(order[k]);
        }
      }
      return None;
    }

    /** The pending handoffs among `calls`, whose time has passed, become completed as expired. */
    method ExpireHandoffs(thread: string, calls: set<string>) returns (expired: set<Call>)
      requires Valid()
      modifies this`rows
      ensures Valid() && rows == Expired(old(rows), thread, calls)
      ensures expired == set c | c in old(rows) && Expires(old(rows), thread, calls, c)
      ensures forall c :: c in expired <==>
                c in old(rows) && c.thread == thread && c.id in calls && old(rows)[c].status.HandedOff?
      ensures rows.Keys == old(rows).Keys && forall c :: c in rows ==>
                rows[c] == if c in expired then Row(old(rows)[c].fp, Completed("expired")) else old(rows)[c]
    {
      ghost var before := rows;
      expired := {};
      var rest := rows.Keys;
      while rest != {}
        invariant rest <= before.Keys == rows.Keys
        invariant forall c :: c in rows ==> rows[c] == if c in rest then before[c]
            else Expired(before, thread, calls)[c]
        invariant expired == set c | c in before.Keys - rest && Expires(before, thread, calls, c)
      {
        var c :| c in rest;
        if c.thread == thread && c.id in calls && rows[c].status.HandedOff? {
          rows := rows[c := rows[c].(status := Completed("expired"))];
          expired := expired + {c};
        }
        rest := rest - {c};
      }
    }

    /** The rows, bindings and images of the thread and of its sub-threads go, and no others. */
    method DeleteThread(thread: string)
      requires Valid()
      modifies this
      ensures Valid() && rows == Kept(old(rows), thread)
      ensures order == Filter(old(order), Uncovered(thread))
      ensures bindings == map t | t in old(bindings) && !Matches(t, thread) :: old(bindings)[t]
      ensures artifacts == map a | a in old(artifacts) && !Matches(old(artifacts)[a], thread) :: old(artifacts)[a]
      ensures forall c :: c in rows <==>
                c in old(rows) && c.thread != thread && !(thread + ":sub:" <= c.thread)
      ensures forall c :: c in rows ==> rows[c] == old(rows)[c]
    {
      hide Filter;
      FilterDistinct(order, Uncovered(thread));
      artifacts := map a | a in artifacts && !Matches(artifacts[a], thread) :: artifacts[a];
      rows := map c | c in rows && !Matches(c.thread, thread) :: rows[c];
      order := Filter(order, Uncovered(thread));
      bindings := map t | t in bindings && !Matches(t, thread) :: bindings[t];
    }
  }

  function Uncovered(thread: string): Call -> bool {
    (c: Call) => !Matches(c.thread, thread)
  }

  predicate Pending(rows: map<Call, Row>, thread: string, c: Call) {
    c in rows && c.thread == thread && rows[c].status.HandedOff?
  }
}
