/**
 Chat messages and the structural rule for tool calls.

 `IsValidMessageSequence` is the scanner of the compaction code; `Scan` is its loop as a
 function of the messages still to be read and of the call ids that are open.  The rest of the
 module proves what the scanner accepts: exactly the concatenations of whole blocks.
 */
module Messages {
  import opened Prelude

  /** `compacted` is the `is_compact_summary` mark.  `calls` holds the ids of an assistant message's
      tool calls; an absent call id is the empty string, which no tool result can ever answer. */
  datatype Message =
    | Human(id: string, text: string, compacted: bool)
    | Ai(id: string, text: string, calls: seq<string>, compacted: bool)
    | Tool(id: string, callId: string, text: string)
    | Other(id: string, kind: string, text: string)

  /** Messages that carry an id carry different ones. */
  ghost predicate UniqueIds(msgs: seq<Message>) {
    forall i, j :: 0 <= i < j < |msgs| && msgs[i].id != "" ==> msgs[i].id != msgs[j].id
  }

  // ---------------------------------------------------------------- the scanner

  /** The set of call ids that a message leaves open. */
  function Opens(m: Message): set<string> {
    if m.Ai? then set c | c in m.calls else {}
  }

  function Advance(open: set<string>, m: Message): Option<set<string>> {
    if m.Tool? then
      if m.callId != "" && m.callId in open then Some(open - {m.callId}) else None
    else if open != {} then None
    else Some(Opens(m))
  }

  /** The open call ids after reading all of `msgs`, or None when the scan rejects. */
  function Scan(msgs: seq<Message>, open: set<string>): Option<set<string>> {
    if msgs == [] then Some(open)
    else match Advance(open, msgs[0])
      case None => None
      case Some(next) => Scan(msgs[1..], next)
  }

  predicate Legal(msgs: seq<Message>) {
    msgs != [] && Scan(msgs, {}) == Some({})
  }

  method IsValidMessageSequence(msgs: seq<Message>) returns (ok: bool)
    ensures ok <==> Legal(msgs)
  {
    if msgs == [] {
      return false;
    }
    if msgs[0].Tool? {
      return false;
    }
    var active: set<string> := {};
    for i := 0 to |msgs|
      invariant Scan(msgs, {}) == Scan(msgs[i..], active)
    {
      var m := msgs[i];
      assert msgs[i..][0] == m && msgs[i..][1..] == msgs[i + 1..];
      if m.Ai? {
        if active != {} {
          return false;
        }
        for j := 0 to |m.calls|
          invariant active == set c | c in m.calls[..j]
        {
          active := active + {m.calls[j]};
        }
        assert m.calls[..|m.calls|] == m.calls;
      } else if m.Tool? {
        if m.callId == "" || m.callId !in active {
          return false;
        }
        active := active - {m.callId};
      } else if active != {} {
        return false;
      }
    }
    return active == {};
  }

  lemma {:induction false} ScanConcat(a: seq<Message>, b: seq<Message>, open: set<string>)
    ensures Scan(a + b, open) == (match Scan(a, open) case None => None case Some(mid) => Scan(b, mid))
  {
    if a == [] {
      assert a + b == b;
    } else {
      assert (a + b)[0] == a[0] && (a + b)[1..] == a[1..] + b;
      match Advance(open, a[0])
      case None =>
      case Some(next) => ScanConcat(a[1..], b, next);
    }
  }

  // ---------------------------------------------------------------- the grammar

  ghost predicate AllTools(ts: seq<Message>) {
    forall t :: t in ts ==> t.Tool?
  }

  function CallIds(ts: seq<Message>): seq<string> {
    if ts == [] then []
    else (if ts[0].Tool? then [ts[0].callId] else []) + CallIds(ts[1..])
  }

  /** One message that is not a tool result, followed by one result for each call that it makes,
      in any order. */
  ghost predicate IsBlock(b: seq<Message>) {
    && b != []
    && !b[0].Tool?
    && AllTools(b[1..])
    && "" !in CallIds(b[1..])
    && multiset(CallIds(b[1..])) == multiset(Opens(b[0]))
  }

  ghost predicate Blocks(parts: seq<seq<Message>>) {
    forall b :: b in parts ==> IsBlock(b)
  }

  function Flatten(parts: seq<seq<Message>>): seq<Message> {
    if parts == [] then [] else parts[0] + Flatten(parts[1..])
  }

  /** One result taken off both sides. */
  lemma TakeOne(c: string, rest: multiset<string>, open: set<string>)
    requires c in open
    ensures multiset{c} + rest == multiset(open) <==> rest == multiset(open - {c})
  {
    assert multiset(open) == multiset{c} + multiset(open - {c});
    if multiset{c} + rest == multiset(open) {
      assert rest == (multiset{c} + rest) - multiset{c};
      assert multiset(open - {c}) == (multiset{c} + multiset(open - {c})) - multiset{c};
    }
  }

  lemma CallIdsUnfold(ts: seq<Message>)
    requires ts != [] && ts[0].Tool?
    ensures var c := ts[0].callId;
            && multiset(CallIds(ts)) == multiset{c} + multiset(CallIds(ts[1..]))
            && (forall x :: x in CallIds(ts) <==> x == c || x in CallIds(ts[1..]))
  {
    assert CallIds(ts) == [ts[0].callId] + CallIds(ts[1..]);
  }

  /** A run of tool results closes exactly the open calls when it answers each of them once. */
  lemma {:induction false} ToolRunCloses(ts: seq<Message>, open: set<string>)
    requires AllTools(ts)
    ensures Scan(ts, open) == Some({}) <==> "" !in CallIds(ts) && multiset(CallIds(ts)) == multiset(open)
  {
    if ts == [] {
      assert |multiset(open)| == |open|;
    } else {
      hide CallIds;
      var c := ts[0].callId;
      assert ts[0] in ts;
      CallIdsUnfold(ts);
      if c != "" && c in open {
        ToolRunCloses(ts[1..], open - {c});
        TakeOne(c, multiset(CallIds(ts[1..])), open);
      } else if c !in open {
        assert c in multiset(CallIds(ts)) && c !in multiset(open);
      }
    }
  }

  lemma BlockScans(b: seq<Message>)
    requires b != [] && !b[0].Tool? && AllTools(b[1..])
    ensures Scan(b, {}) == Some({}) <==> IsBlock(b)
  {
    ToolRunCloses(b[1..], Opens(b[0]));
  }

  function LeadingTools(msgs: seq<Message>): (n: nat)
    ensures n <= |msgs|
    ensures n < |msgs| ==> !msgs[n].Tool?
    ensures forall i :: 0 <= i < n ==> msgs[i].Tool?
  {
    if msgs == [] || !msgs[0].Tool? then 0 else 1 + LeadingTools(msgs[1..])
  }

  /** The only possible block decomposition: every message that is not a tool result starts one. */
  function Split(msgs: seq<Message>): (parts: seq<seq<Message>>)
    ensures Flatten(parts) == msgs
    ensures forall b :: b in parts ==> b != []
  {
    if msgs == [] then []
    else
      var k := 1 + LeadingTools(msgs[1..]);
      var parts := [msgs[..k]] + Split(msgs[k..]);
      assert parts[1..] == Split(msgs[k..]);
      parts
  }

  lemma {:induction false} LegalSplits(msgs: seq<Message>)
    requires Scan(msgs, {}) == Some({})
    ensures Blocks(Split(msgs))
    decreases |msgs|
  {
    if msgs != [] {
      var k := 1 + LeadingTools(msgs[1..]);
      assert msgs[..k] + msgs[k..] == msgs;
      ScanConcat(msgs[..k], msgs[k..], {});
      assert Scan(msgs[..k], {}) == Some({});
      BlockScans(msgs[..k]);
      LegalSplits(msgs[k..]);
    }
  }

  lemma {:induction false} BlocksScan(parts: seq<seq<Message>>)
    requires Blocks(parts)
    ensures Scan(Flatten(parts), {}) == Some({})
  {
    if parts != [] {
      assert parts[0] in parts;
      BlockScans(parts[0]);
      ScanConcat(parts[0], Flatten(parts[1..]), {});
      BlocksScan(parts[1..]);
    }
  }

  /** The scanner accepts exactly the non-empty concatenations of blocks. */
  lemma LegalIffBlocks(msgs: seq<Message>)
    ensures Legal(msgs) <==> msgs != [] && exists parts :: Blocks(parts) && Flatten(parts) == msgs
  {
    if Legal(msgs) {
      LegalSplits(msgs);
      assert Blocks(Split(msgs)) && Flatten(Split(msgs)) == msgs;
    }
    if parts :| Blocks(parts) && Flatten(parts) == msgs {
      BlocksScan(parts);
    }
  }

  lemma {:induction false} LeadingToolsIs(msgs: seq<Message>, n: nat)
    requires n <= |msgs|
    requires forall i :: 0 <= i < n ==> msgs[i].Tool?
    requires n < |msgs| ==> !msgs[n].Tool?
    ensures LeadingTools(msgs) == n
  {
    if n > 0 {
      LeadingToolsIs(msgs[1..], n - 1);
    }
  }

  /** The decomposition is unique. */
  lemma {:induction false} SplitUnique(parts: seq<seq<Message>>)
    requires Blocks(parts)
    ensures Split(Flatten(parts)) == parts
  {
    if parts != [] {
      var msgs, b := Flatten(parts), parts[0];
      assert b in parts;
      assert msgs == b + Flatten(parts[1..]);
      forall i | 0 <= i < |b| - 1 ensures msgs[1..][i].Tool? {
        assert msgs[1..][i] == b[1..][i] && b[1..][i] in b[1..];
      }
      if parts[1..] != [] {
        assert parts[1..][0] in parts;
        assert msgs[|b|] == parts[1..][0][0];
      }
      LeadingToolsIs(msgs[1..], |b| - 1);
      assert msgs[..|b|] == b && msgs[|b|..] == Flatten(parts[1..]);
      SplitUnique(parts[1..]);
    }
  }

  lemma {:induction false} FlattenConcat(a: seq<seq<Message>>, b: seq<seq<Message>>)
    ensures Flatten(a + b) == Flatten(a) + Flatten(b)
  {
    if a == [] {
      assert a + b == b;
    } else {
      assert (a + b)[0] == a[0] && (a + b)[1..] == a[1..] + b;
      FlattenConcat(a[1..], b);
    }
  }

  // ---------------------------------------------------------------- cutting a legal history

  /** Cutting a legal history leaves a legal suffix exactly when it leaves a legal prefix. */
  lemma CutHalves(msgs: seq<Message>, i: nat)
    requires Legal(msgs) && 0 < i < |msgs|
    ensures Legal(msgs[i..]) <==> Legal(msgs[..i])
  {
    assert msgs[..i] + msgs[i..] == msgs;
    ScanConcat(msgs[..i], msgs[i..], {});
    assert Scan(msgs[..i], {}).Some?;
    var open := Scan(msgs[..i], {}).value;
    if Legal(msgs[i..]) {
      assert !msgs[i..][0].Tool?;
      assert open == {};
    }
  }

  ghost predicate InteriorBoundary(msgs: seq<Message>, i: nat) {
    exists j :: 0 < j < |Split(msgs)| && i == |Flatten(Split(msgs)[..j])|
  }

  lemma SafeCutIsBoundary(msgs: seq<Message>, i: nat)
    requires Legal(msgs) && 0 < i < |msgs| && Legal(msgs[i..])
    ensures InteriorBoundary(msgs, i)
  {
    CutHalves(msgs, i);
    LegalSplits(msgs[..i]);
    LegalSplits(msgs[i..]);
    var pre, post := Split(msgs[..i]), Split(msgs[i..]);
    FlattenConcat(pre, post);
    assert msgs[..i] + msgs[i..] == msgs;
    SplitUnique(pre + post);
    assert Split(msgs) == pre + post && Split(msgs)[..|pre|] == pre;
  }

  lemma BoundaryIsSafeCut(msgs: seq<Message>, j: nat)
    requires Legal(msgs) && 0 < j < |Split(msgs)|
    ensures var i := |Flatten(Split(msgs)[..j])|; 0 < i < |msgs| ==> Legal(msgs[i..])
  {
    LegalSplits(msgs);
    var parts := Split(msgs);
    assert parts == parts[..j] + parts[j..];
    FlattenConcat(parts[..j], parts[j..]);
    assert msgs[|Flatten(parts[..j])|..] == Flatten(parts[j..]);
    BlocksScan(parts[j..]);
  }

  /** The safe cut indices of a legal history are its interior block boundaries. */
  lemma SafeCutIffBoundary(msgs: seq<Message>, i: nat)
    requires Legal(msgs) && 0 < i < |msgs|
    ensures Legal(msgs[i..]) <==> InteriorBoundary(msgs, i)
  {
    if Legal(msgs[i..]) {
      SafeCutIsBoundary(msgs, i);
    }
    if j :| 0 < j < |Split(msgs)| && i == |Flatten(Split(msgs)[..j])| {
      BoundaryIsSafeCut(msgs, j);
    }
  }

  /** Equivalently: a legal history is cut safely wherever the first retained message is not a tool result. */
  lemma SafeCutIffNotTool(msgs: seq<Message>, i: nat)
    requires Legal(msgs) && 0 < i < |msgs|
    ensures Legal(msgs[i..]) <==> !msgs[i].Tool?
  {
    assert msgs == msgs[..i] + msgs[i..];
    ScanConcat(msgs[..i], msgs[i..], {});
    assert msgs[i..][0] == msgs[i];
  }

  /** A legal history has a safe cut unless it is a single block. */
  lemma SafeCutExists(msgs: seq<Message>)
    requires Legal(msgs)
    ensures (exists i :: 0 < i < |msgs| && Legal(msgs[i..])) <==> |Split(msgs)| > 1
  {
    LegalSplits(msgs);
    var parts := Split(msgs);
    if |parts| > 1 {
      var i := |parts[0]|;
      assert Flatten(parts[..1]) == parts[0] by {
        assert parts[..1][0] == parts[0] && parts[..1][1..] == [];
      }
      assert Flatten(parts[1..]) == parts[1] + Flatten(parts[2..]) by {
        assert parts[1..][0] == parts[1] && parts[1..][1..] == parts[2..];
      }
      assert msgs == parts[0] + Flatten(parts[1..]);
      assert parts[0] in parts && parts[1] in parts;
      assert InteriorBoundary(msgs, i);
      SafeCutIffBoundary(msgs, i);
    }
    if i :| 0 < i < |msgs| && Legal(msgs[i..]) {
      SafeCutIffBoundary(msgs, i);
    }
  }
}
