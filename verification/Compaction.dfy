/**
 Replacing a prefix of a history by a summary.

 The token counter, the summariser and the message trimmer are arbitrary: `count` is any function
 of a history, `generate` any (possibly failing) source of summaries and `trimmed` whatever the
 trimmer returned, None when it raised.
 */
module Compaction {
  import opened Prelude
  import opened Messages

  datatype CutError = TooShort | NoSafeCut

  datatype CompactionError =
    | TooFewMessages
    | CannotCut(why: CutError)
    | NoBudget
    | NoRoomForSummary
    | SummaryFailed
    | SummaryTooLarge

  // ---------------------------------------------------------------- choosing the cut

  predicate SafeCut(msgs: seq<Message>, i: nat) {
    0 < i < |msgs| && Legal(msgs[i..])
  }

  predicate HumanCut(msgs: seq<Message>, i: nat) {
    SafeCut(msgs, i) && msgs[i].Human?
  }

  function SafeCuts(msgs: seq<Message>, lo: nat): (cuts: seq<nat>)
    requires lo > 0
    ensures Ascending(cuts)
    ensures forall i: nat :: i in cuts <==> lo <= i && SafeCut(msgs, i)
  {
    IndicesWhere(lo, |msgs|, (i: nat) => SafeCut(msgs, i))
  }

  function HumanCuts(msgs: seq<Message>): (cuts: seq<nat>)
    ensures Ascending(cuts)
    ensures forall i: nat :: i in cuts <==> HumanCut(msgs, i)
  {
    IndicesWhere(1, |msgs|, (i: nat) => HumanCut(msgs, i))
  }

  /** The human cuts that keep at most `keep` messages. */
  function NearHumanCuts(msgs: seq<Message>, keep: int): (cuts: seq<nat>)
    ensures Ascending(cuts)
    ensures forall i: nat :: i in cuts <==> HumanCut(msgs, i) && |msgs| - i <= keep
  {
    IndicesWhere(1, |msgs|, (i: nat) => HumanCut(msgs, i) && |msgs| - i <= keep)
  }

  /** The element of `xs` closest to `target`, the earliest on a tie. */
  function Closest(xs: seq<nat>, target: int): (r: nat)
    requires xs != []
    ensures r in xs
  {
    if |xs| == 1 then xs[0]
    else
      var rest := Closest(xs[1..], target);
      if Abs(xs[0] - target) <= Abs(rest - target) then xs[0] else rest
  }

  predicate AtLeastAsClose(i: nat, j: nat, target: int) {
    Abs(i - target) < Abs(j - target) || (Abs(i - target) == Abs(j - target) && i <= j)
  }

  lemma {:induction false} ClosestMeets(xs: seq<nat>, target: int)
    requires xs != [] && Ascending(xs)
    ensures forall x :: x in xs ==> AtLeastAsClose(Closest(xs, target), x, target)
  {
    if |xs| > 1 {
      assert Ascending(xs[1..]);
      ClosestMeets(xs[1..], target);
      var rest := Closest(xs[1..], target);
      var k :| 0 <= k < |xs[1..]| && xs[1..][k] == rest;
      assert xs[0] < xs[k + 1] == rest;
      forall x | x in xs ensures AtLeastAsClose(Closest(xs, target), x, target) {
        if x != xs[0] {
          assert x in xs[1..];
          assert AtLeastAsClose(rest, x, target);
        }
      }
    }
  }

  function ResolveCutoff(msgs: seq<Message>, targetKeep: int): Result<nat, CutError> {
    var total := |msgs|;
    if total < 3 then Failure(TooShort)
    else
      var safe := SafeCuts(msgs, 1);
      if safe == [] then Failure(NoSafeCut)
      else
        var human := HumanCuts(msgs);
        if human != [] then
          var within := NearHumanCuts(msgs, targetKeep);
          if within != [] then Success(within[0]) else Success(human[|human| - 1])
        else
          Success(Closest(safe, Max(1, total - targetKeep)))
  }

  ghost predicate PreferredHuman(msgs: seq<Message>, keep: int, i: nat) {
    && HumanCut(msgs, i)
    && (if exists h: nat :: HumanCut(msgs, h) && |msgs| - h <= keep
        then |msgs| - i <= keep && forall h: nat :: HumanCut(msgs, h) && |msgs| - h <= keep ==> i <= h
        else forall h: nat :: HumanCut(msgs, h) ==> h <= i)
  }

  /** `i` is the cut that the stated order of preference picks: the longest suffix of at most `keep`
      messages that starts with a user message; else the shortest suffix that starts with one; else
      the safe cut closest to keeping `keep` messages. */
  ghost predicate Preferred(msgs: seq<Message>, keep: int, i: nat) {
    && SafeCut(msgs, i)
    && (if exists h: nat :: HumanCut(msgs, h)
        then PreferredHuman(msgs, keep, i)
        else forall j: nat :: SafeCut(msgs, j) ==> AtLeastAsClose(i, j, Max(1, |msgs| - keep)))
  }

  lemma HumanChoice(msgs: seq<Message>, keep: int)
    requires HumanCuts(msgs) != []
    ensures var human, within := HumanCuts(msgs), NearHumanCuts(msgs, keep);
            PreferredHuman(msgs, keep, if within != [] then within[0] else human[|human| - 1])
  {
    hide HumanCut, HumanCuts, NearHumanCuts;
    var human, within := HumanCuts(msgs), NearHumanCuts(msgs, keep);
    if within != [] {
      assert within[0] in within;
    } else {
      assert human[|human| - 1] in human;
      assert forall h: nat :: HumanCut(msgs, h) && |msgs| - h <= keep ==> h in within;
    }
  }

  /** The cut search fails only on short histories and on ones without a safe cut; otherwise it
      returns the single cut that the order of preference describes. */
  lemma ResolveCutoffMeets(msgs: seq<Message>, keep: int)
    ensures ResolveCutoff(msgs, keep) == Failure(TooShort) <==> |msgs| < 3
    ensures ResolveCutoff(msgs, keep) == Failure(NoSafeCut) <==> |msgs| >= 3 && !exists i: nat :: SafeCut(msgs, i)
    ensures forall i: nat :: ResolveCutoff(msgs, keep) == Success(i) ==> Preferred(msgs, keep, i)
  {
    var safe := SafeCuts(msgs, 1);
    if |msgs| >= 3 && safe != [] {
      assert safe[0] in safe && SafeCut(msgs, safe[0]);
      if HumanCuts(msgs) != [] {
        assert HumanCuts(msgs)[0] in HumanCuts(msgs);
        HumanChoice(msgs, keep);
      } else {
        assert forall h: nat :: HumanCut(msgs, h) ==> h in HumanCuts(msgs);
        ClosestMeets(safe, Max(1, |msgs| - keep));
      }
    } else if |msgs| >= 3 {
      assert forall i: nat :: SafeCut(msgs, i) ==> i in safe;
    }
  }

  /** In full: of the cuts that leave a legal history, with a user message first if there is any, the earliest that
      keeps at most `keep` messages, else the last; without any, the one closest to keeping `keep`, or the whole
      history but its first message if that is less. */
  lemma PreferredMeans(msgs: seq<Message>, keep: int, i: nat)
    requires Preferred(msgs, keep, i)
    ensures 0 < i < |msgs| && Legal(msgs[i..])
    ensures forall h: nat :: 0 < h < |msgs| && Legal(msgs[h..]) && msgs[h].Human? ==>
              && msgs[i].Human?
              && (|msgs| - h <= keep ==> |msgs| - i <= keep && i <= h)
              && (|msgs| - i > keep ==> h <= i)
    ensures forall j: nat :: 0 < j < |msgs| && Legal(msgs[j..]) && !msgs[i].Human? ==>
              var target := if |msgs| - keep < 1 then 1 else |msgs| - keep;
              Distance(i, target) < Distance(j, target) || (Distance(i, target) == Distance(j, target) && i <= j)
  {
    hide Legal;
    forall h: nat | 0 < h < |msgs| && Legal(msgs[h..]) && msgs[h].Human?
      ensures msgs[i].Human? && (|msgs| - h <= keep ==> |msgs| - i <= keep && i <= h)
        && (|msgs| - i > keep ==> h <= i)
    {
      assert HumanCut(msgs, h);
    }
    forall j: nat | 0 < j < |msgs| && Legal(msgs[j..]) && !msgs[i].Human?
      ensures AtLeastAsClose(i, j, Max(1, |msgs| - keep))
    {
      assert SafeCut(msgs, j);
    }
  }

  function Distance(a: int, b: int): nat {
    if a < b then b - a else a - b
  }

  lemma PreferredUnique(msgs: seq<Message>, keep: int, i: nat, j: nat)
    requires Preferred(msgs, keep, i) && Preferred(msgs, keep, j)
    ensures i == j
  {
    assert SafeCut(msgs, i) && SafeCut(msgs, j);
  }

  lemma SafeCutSomewhere(msgs: seq<Message>)
    ensures (exists i: nat :: SafeCut(msgs, i)) <==> exists i :: 0 < i < |msgs| && Legal(msgs[i..])
  {
    hide Legal;
    if i: nat :| SafeCut(msgs, i) {
      assert 0 < i < |msgs| && Legal(msgs[i..]);
    }
    if i :| 0 < i < |msgs| && Legal(msgs[i..]) {
      assert SafeCut(msgs, i);
    }
  }

  lemma FailureKinds(r: Result<nat, CutError>)
    ensures r.Failure? ==> r == Failure(TooShort) || r == Failure(NoSafeCut)
  {
    if r.Failure? {
      assert r.error.TooShort? || r.error.NoSafeCut?;
    }
  }

  lemma SplitNonempty(msgs: seq<Message>)
    requires Legal(msgs)
    ensures Split(msgs) != []
  {
  }

  lemma PreferredIsSafe(msgs: seq<Message>, keep: int, i: nat)
    requires Preferred(msgs, keep, i)
    ensures SafeCut(msgs, i)
  {
  }

  /** On a legal history of three or more messages the search fails only on a single block, and the
      cut that it returns falls between two blocks and leaves two legal halves. */
  lemma CutoffFailsOnlyOnOneBlock(msgs: seq<Message>, keep: int)
    requires Legal(msgs) && |msgs| >= 3
    ensures ResolveCutoff(msgs, keep).Failure? <==> |Split(msgs)| == 1
    ensures ResolveCutoff(msgs, keep).Success? ==>
              var i := ResolveCutoff(msgs, keep).value;
              0 < i < |msgs| && InteriorBoundary(msgs, i) && Legal(msgs[..i]) && Legal(msgs[i..])
  {
    hide ResolveCutoff, Legal, Split, Preferred, InteriorBoundary;
    var r := ResolveCutoff(msgs, keep);
    ResolveCutoffMeets(msgs, keep);
    SafeCutExists(msgs);
    SplitNonempty(msgs);
    SafeCutSomewhere(msgs);
    FailureKinds(r);
    if r.Success? {
      PreferredIsSafe(msgs, keep, r.value);
      SafeCutIffBoundary(msgs, r.value);
      CutHalves(msgs, r.value);
    }
  }

  // ---------------------------------------------------------------- the trimmer's proposal

  function FirstWithId(msgs: seq<Message>, id: string): (r: Option<nat>)
    ensures r.Some? ==> r.value < |msgs| && msgs[r.value].id == id && forall j :: 0 <= j < r.value ==> msgs[j].id != id
    ensures r.None? ==> forall j :: 0 <= j < |msgs| ==> msgs[j].id != id
  {
    if msgs == [] then None
    else if msgs[0].id == id then Some(0)
    else match FirstWithId(msgs[1..], id)
      case None => None
      case Some(i) => Some(i + 1)
  }

  /** The index that the trimmer's result is taken to start at: the first message that carries the
      id of its first message. */
  function TrimmedCut(msgs: seq<Message>, trimmed: Option<seq<Message>>): (r: Option<nat>)
    ensures r.Some? ==> 0 < r.value < |msgs|
  {
    match trimmed
    case None => None
    case Some(kept) =>
      if 0 < |kept| < |msgs| && Legal(kept) && kept[0].id != "" then
        match FirstWithId(msgs, kept[0].id)
        case None => None
        case Some(i) => if 0 < i < |msgs| then Some(i) else None
      else None
  }

  /** What the lookup finds: the first message, not at the start, with the id of a proper legal proposal's first. */
  lemma TrimmedCutIff(msgs: seq<Message>, trimmed: Option<seq<Message>>, i: nat)
    ensures TrimmedCut(msgs, trimmed) == Some(i) <==>
            && trimmed.Some? && 0 < |trimmed.value| < |msgs| && Legal(trimmed.value) && trimmed.value[0].id != ""
            && 0 < i < |msgs| && msgs[i].id == trimmed.value[0].id
            && forall j :: 0 <= j < i ==> msgs[j].id != trimmed.value[0].id
  {
    hide Legal;
  }

  function StartingCut(msgs: seq<Message>, trimmed: Option<seq<Message>>, keep: int): Result<nat, CutError> {
    match TrimmedCut(msgs, trimmed)
    case Some(i) => Success(i)
    case None => ResolveCutoff(msgs, keep)
  }

  ghost predicate IsSuffix(kept: seq<Message>, msgs: seq<Message>) {
    |kept| <= |msgs| && kept == msgs[|msgs| - |kept|..]
  }

  /** No message in front of the retained ones carries the id of the first of them. */
  ghost predicate FirstWithItsId(msgs: seq<Message>, kept: seq<Message>) {
    kept != [] ==> forall j :: 0 <= j < |msgs| - |kept| ==> msgs[j].id != kept[0].id
  }

  /** What the trimmer promises: it raises, or it returns a suffix whose first id is not used in front of it,
      as in a history with unique ids. */
  ghost predicate TrimSound(msgs: seq<Message>, trimmed: Option<seq<Message>>) {
    trimmed.Some? ==> IsSuffix(trimmed.value, msgs) && FirstWithItsId(msgs, trimmed.value)
  }

  /** The lookup by id finds the start of the trimmer's suffix exactly when no earlier message has its id. */
  lemma TrimmedCutIffFirst(msgs: seq<Message>, kept: seq<Message>)
    requires IsSuffix(kept, msgs) && 0 < |kept| < |msgs| && Legal(kept) && kept[0].id != ""
    ensures TrimmedCut(msgs, Some(kept)) == Some(|msgs| - |kept|) <==> FirstWithItsId(msgs, kept)
  {
    hide Legal;
    assert msgs[|msgs| - |kept|] == kept[0];
  }

  lemma UniqueIdsTrimSound(msgs: seq<Message>, kept: seq<Message>)
    requires UniqueIds(msgs) && IsSuffix(kept, msgs) && (kept != [] ==> kept[0].id != "")
    ensures TrimSound(msgs, Some(kept))
  {
    if kept != [] {
      assert msgs[|msgs| - |kept|] == kept[0];
    }
  }

  lemma StartingCutSafe(msgs: seq<Message>, trimmed: Option<seq<Message>>, keep: int)
    requires TrimSound(msgs, trimmed)
    ensures forall i: nat :: StartingCut(msgs, trimmed, keep) == Success(i) ==> SafeCut(msgs, i)
  {
    ResolveCutoffMeets(msgs, keep);
    if TrimmedCut(msgs, trimmed).Some? {
      TrimmedCutIffFirst(msgs, trimmed.value);
    }
  }

  lemma StartingCutInRange(msgs: seq<Message>, trimmed: Option<seq<Message>>, keep: int)
    ensures forall i: nat :: StartingCut(msgs, trimmed, keep) == Success(i) ==> 0 < i < |msgs|
  {
    ResolveCutoffMeets(msgs, keep);
    assert forall i: nat :: Preferred(msgs, keep, i) ==> SafeCut(msgs, i);
  }

  /** Exactly when it is safe on a legal history: the message found there, the first that carries the id of the
      trimmer's first message, is not a tool result. */
  lemma StartingCutSafeIff(msgs: seq<Message>, trimmed: Option<seq<Message>>, keep: int)
    requires Legal(msgs)
    ensures forall i: nat :: StartingCut(msgs, trimmed, keep) == Success(i) ==>
              i < |msgs| && (SafeCut(msgs, i) <==> !msgs[i].Tool?)
  {
    hide Legal, StartingCut;
    StartingCutInRange(msgs, trimmed, keep);
    forall i: nat | StartingCut(msgs, trimmed, keep) == Success(i) ensures SafeCut(msgs, i) <==> !msgs[i].Tool? {
      SafeCutIffNotTool(msgs, i);
    }
  }

  /** Without unique ids the trimmer's proposal can split a tool group. */
  lemma DuplicateIdsCanSplitAToolGroup()
    ensures exists msgs: seq<Message>, trimmed: seq<Message>, keep: int, i: nat ::
              && Legal(msgs) && IsSuffix(trimmed, msgs)
              && StartingCut(msgs, Some(trimmed), keep) == Success(i) && i < |msgs| && !Legal(msgs[i..])
  {
    var ask, call := Human("a", "hi", false), Ai("b", "", ["c"], false);
    var answer, again := Tool("d", "c", "ok"), Human("d", "more", false);
    var msgs := [ask, call, answer, again];
    assert Opens(call) == {"c"} by { assert call.calls[0] == "c"; }
    assert Scan([again], {}) == Some({});
    assert msgs[1..] == [call, answer, again] && msgs[1..][1..] == [answer, again] && msgs[1..][1..][1..] == [again];
    assert {"c"} - {"c"} == {};
    assert Scan([answer, again], {"c"}) == Scan([again], {});
    assert Scan(msgs[1..], {}) == Scan([answer, again], {"c"});
    assert Legal(msgs);
    assert msgs[3..] == [again];
    var found := FirstWithId(msgs, "d");
    assert msgs[2].id == "d" && found == Some(2);
    assert TrimmedCut(msgs, Some([again])) == Some(2);
    assert msgs[2..][0] == answer;
    assert IsSuffix([again], msgs) && StartingCut(msgs, Some([again]), 1) == Success(2) && !Legal(msgs[2..]);
  }

  // ---------------------------------------------------------------- injecting a summary

  /** Wording and ids of the message pair that carries a summary. */
  datatype Wording = Wording(summaryId: string, ackId: string, before: string, after: string, ack: string)

  function Inject(w: Wording, summary: string, msgs: seq<Message>, cut: nat): seq<Message>
    requires cut < |msgs|
  {
    var human := Human(w.summaryId, w.before + summary + w.after, true);
    var ai := Ai(w.ackId, w.ack, [], true);
    if msgs[cut].Ai? then [human] + msgs[cut..] else [human, ai] + msgs[cut..]
  }

  /** The injected history is legal exactly when the retained suffix is. */
  lemma InjectLegal(w: Wording, summary: string, msgs: seq<Message>, cut: nat)
    requires cut < |msgs|
    ensures Legal(Inject(w, summary, msgs, cut)) <==> Legal(msgs[cut..])
  {
    var out := Inject(w, summary, msgs, cut);
    var k := if msgs[cut].Ai? then 1 else 2;
    assert out[..k] + msgs[cut..] == out;
    assert Scan(out[..k], {}) == Some({}) by {
      if k == 2 {
        assert out[..k][1..] == [out[1]] && Opens(out[1]) == {};
        assert Scan([out[1]], {}) == Some({});
      }
    }
    ScanConcat(out[..k], msgs[cut..], {});
  }

  /** The summary stands in front, marked as one, with an acknowledgement unless an assistant message follows. */
  lemma InjectShape(w: Wording, summary: string, msgs: seq<Message>, cut: nat)
    requires cut < |msgs|
    ensures Injected(w, summary, msgs[cut..], Inject(w, summary, msgs, cut))
  {
  }

  predicate Injected(w: Wording, summary: string, kept: seq<Message>, out: seq<Message>) {
    && out != [] && kept != []
    && out[0].Human? && out[0].id == w.summaryId && out[0].compacted
    && out[0].text == w.before + summary + w.after
    && (if kept[0].Ai? then out[1..] == kept
        else |out| > 1 && out[1] == Ai(w.ackId, w.ack, [], true) && out[2..] == kept)
  }

  // ---------------------------------------------------------------- the budget loop

  datatype CompactedHistory = CompactedHistory(messages: seq<Message>, summary: string, compactedCount: nat,
      keptCount: nat)

  /** One call of the summariser: the cut whose prefix it was given, and the token limit if any. */
  datatype Request = Request(cut: nat, prefix: seq<Message>, limit: Option<int>)

  function Pow2(n: nat): (r: nat)
    ensures r > 0
  {
    if n == 0 then 1 else 2 * Pow2(n - 1)
  }

  function FirstMinimal(xs: seq<nat>, key: nat -> int): (r: nat)
    requires xs != []
    ensures r in xs
    ensures forall x :: x in xs ==> key(r) <= key(x)
    ensures Ascending(xs) ==> forall x :: x in xs && key(x) == key(r) ==> r <= x
  {
    if |xs| == 1 then xs[0]
    else
      var rest := FirstMinimal(xs[1..], key);
      assert forall x :: x in xs ==> x == xs[0] || x in xs[1..];
      if key(xs[0]) <= key(rest) then xs[0] else rest
  }

  /** The least element of an ascending sequence that satisfies `p`. */
  function LeastWhere(xs: seq<nat>, p: nat -> bool): (r: Option<nat>)
    requires Ascending(xs)
    ensures r.Some? ==> r.value in xs && p(r.value) && forall x :: x in xs && p(x) ==> r.value <= x
    ensures r.None? ==> forall x :: x in xs ==> !p(x)
  {
    var r := FirstWhere(xs, p);
    if r.Some? then
      var k :| 0 <= k < |xs| && xs[k] == r.value && p(xs[k]) && forall j :: 0 <= j < k ==> !p(xs[j]);
      assert r.value in xs && p(r.value);
      r
    else r
  }

  /** After a summary that was too long: the first later candidate that it would fit, else the same. */
  function NextCut(safe: seq<nat>, cut: nat, size: nat -> int, budget: int): (next: nat)
    requires cut in safe && Ascending(safe)
    ensures next in safe && cut <= next
    ensures next > cut ==> size(next) <= budget
    ensures forall i :: i in safe && i > cut && size(i) <= budget ==> cut < next <= i
  {
    match LeastWhere(safe, (i: nat) => i > cut && size(i) <= budget)
    case Some(i) => i
    case None => cut
  }

  /** Under a budget: the first candidate that leaves `reserve` for a summary, else the one that
      retains least. */
  function FirstCut(safe: seq<nat>, size: nat -> int, reserve: int, budget: int): (cut: nat)
    requires safe != [] && Ascending(safe)
    ensures cut in safe
    ensures if exists i :: i in safe && size(i) + reserve <= budget
            then size(cut) + reserve <= budget && forall i :: i in safe && size(i) + reserve <= budget ==> cut <= i
            else forall i :: i in safe ==> size(cut) < size(i) || (size(cut) == size(i) && cut <= i)
  {
    match LeastWhere(safe, (i: nat) => size(i) + reserve <= budget)
    case Some(i) => i
    case None => FirstMinimal(safe, size)
  }

  /** The tokens of a history whose prefix in front of `cut` is replaced by `summary`. */
  function Size(w: Wording, count: seq<Message> -> int, summary: string, msgs: seq<Message>, cut: nat): int {
    if cut < |msgs| then count(Inject(w, summary, msgs, cut)) else 0
  }

  function Sizes(w: Wording, count: seq<Message> -> int, summary: string, msgs: seq<Message>): nat -> int {
    (i: nat) => Size(w, count, summary, msgs, i)
  }

  /** The limit of attempt `k`: what the budget leaves beside the retained messages, at most 2048,
      halved for each earlier attempt. */
  function SummaryLimit(w: Wording, count: seq<Message> -> int, msgs: seq<Message>, cut: nat, budget: int,
          k: nat): int {
    Min(2048, budget - Size(w, count, "", msgs, cut)) / Pow2(k)
  }

  /** The limit is the largest that fits, 2^k times over, into 2048 and into what the budget leaves. */
  lemma SummaryLimitMeets(w: Wording, count: seq<Message> -> int, msgs: seq<Message>, cut: nat, budget: int, k: nat)
    requires cut < |msgs| && k < 3
    ensures var limit, retained := SummaryLimit(w, count, msgs, cut, budget, k), count(Inject(w, "", msgs, cut));
            var times := if k == 0 then 1 else if k == 1 then 2 else 4;
            && times * limit <= 2048 && retained + times * limit <= budget
            && (times * (limit + 1) > 2048 || retained + times * (limit + 1) > budget)
  {
    assert Pow2(k) == if k == 0 then 1 else if k == 1 then 2 else 4 by {
      assert Pow2(0) == 1 && Pow2(1) == 2 && Pow2(2) == 4;
    }
  }

  /** The summariser was asked at most three times, each time with exactly the prefix in front of the
      current cut and, under a budget, with a positive limit; the cut never moved backwards. */
  ghost predicate ProperRequests(msgs: seq<Message>, requests: seq<Request>, budget: Option<int>,
          count: seq<Message> -> int, w: Wording) {
    && |requests| <= 3
    && (forall k :: 0 <= k < |requests| ==> ProperRequest(msgs, requests[k], k, budget, count, w))
    && (forall j, k :: 0 <= j < k < |requests| ==> requests[j].cut <= requests[k].cut)
  }

  ghost predicate ProperRequest(msgs: seq<Message>, q: Request, k: nat, budget: Option<int>, count: seq<Message> -> int,
          w: Wording) {
    && 0 < q.cut < |msgs|
    && q.prefix == msgs[..q.cut]
    && (if budget.Some? then q.limit == Some(SummaryLimit(w, count, msgs, q.cut, budget.value, k)) && q.limit.value > 0
        else q.limit.None?)
  }

  /** A returned history is the last generated summary in front of exactly what that summary omits. */
  ghost predicate Replaces(msgs: seq<Message>, out: CompactedHistory, last: Request, w: Wording) {
    && out.compactedCount == last.cut < |msgs|
    && out.compactedCount + out.keptCount == |msgs|
    && last.prefix + msgs[last.cut..] == msgs
    && out.messages == Inject(w, out.summary, msgs, last.cut)
  }

  ghost predicate Candidates(msgs: seq<Message>, cuts: seq<nat>, sound: bool) {
    && Ascending(cuts)
    && forall i :: i in cuts ==> 0 < i < |msgs| && (sound ==> Legal(msgs[i..]))
  }

  /** The candidate cuts under a budget: the starting cut and every later safe one. */
  function CandidateCuts(msgs: seq<Message>, start: nat): (safe: seq<nat>)
    ensures Ascending(safe)
    ensures forall i: nat :: i in safe <==> i == start || (i > start && SafeCut(msgs, i))
  {
    var later := SafeCuts(msgs, start + 1);
    assert forall i :: 0 <= i < |later| ==> later[i] in later;
    assert forall i :: i in [start] + later <==> i == start || i in later;
    [start] + later
  }

  /** The budget of a compaction: what it was given, and always less than the history's own size. */
  function InputBudget(msgs: seq<Message>, maxRetained: Option<int>, count: seq<Message> -> int): Option<int> {
    match maxRetained
    case None => None
    case Some(n) => Some(Min(n, count(msgs) - 1))
  }

  lemma AppendRequest(msgs: seq<Message>, requests: seq<Request>, q: Request, budget: Option<int>,
          count: seq<Message> -> int, w: Wording)
    requires ProperRequests(msgs, requests, budget, count, w) && |requests| < 3
    requires ProperRequest(msgs, q, |requests|, budget, count, w)
    requires requests != [] ==> requests[|requests| - 1].cut <= q.cut
    ensures ProperRequests(msgs, requests + [q], budget, count, w)
  {
  }

  /** Everything that a compaction depends on: the candidate cuts and the first one to try. */
  datatype CutPlan = CutPlan(msgs: seq<Message>, start: nat, safe: seq<nat>, budget: Option<int>, w: Wording)

  /** The cut to try after the requests made so far. */
  function CutAfter(p: CutPlan, count: seq<Message> -> int,
          generate: (seq<Message>, Option<int>, nat) -> Option<string>,
                    requests: seq<Request>): (cut: nat)
    requires Ascending(p.safe) && p.start in p.safe
    ensures cut in p.safe
  {
    if requests == [] || p.budget.None? then p.start
    else
      var last := requests[|requests| - 1];
      match generate(last.prefix, last.limit, |requests| - 1)
      case Some(summary) => if last.cut in p.safe
          then NextCut(p.safe, last.cut, Sizes(p.w, count, summary, p.msgs), p.budget.value) else p.start
      case None => p.start
  }

  /** Request `k` is for the cut due after the earlier ones, whose summaries were all too long. */
  ghost predicate InTurn(p: CutPlan, count: seq<Message> -> int,
          generate: (seq<Message>, Option<int>, nat) -> Option<string>,
                         requests: seq<Request>, k: nat)
    requires Ascending(p.safe) && p.start in p.safe && k < |requests|
  {
    && requests[k].cut == CutAfter(p, count, generate, requests[..k])
    && (k > 0 ==> TooLong(p, count, generate, requests, k - 1))
  }

  ghost predicate TooLong(p: CutPlan, count: seq<Message> -> int,
          generate: (seq<Message>, Option<int>, nat) -> Option<string>,
                          requests: seq<Request>, k: nat)
    requires k < |requests|
  {
    var q := requests[k];
    var g := generate(q.prefix, q.limit, k);
    p.budget.Some? && g.Some? && q.cut < |p.msgs| && count(Inject(p.w, g.value, p.msgs, q.cut)) > p.budget.value
  }

  /** Candidate `i` lies behind the last cut and would fit with this summary. */
  predicate FitsLater(p: CutPlan, count: seq<Message> -> int, summary: string, last: nat, i: nat) {
    && p.budget.Some? && last < i < |p.msgs| && i in p.safe
    && count(Inject(p.w, summary, p.msgs, i)) <= p.budget.value
  }

  lemma NextFits(p: CutPlan, count: seq<Message> -> int, summary: string, last: nat)
    requires Ascending(p.safe) && last in p.safe && p.budget.Some? && forall i :: i in p.safe ==> i < |p.msgs|
    ensures var next := NextCut(p.safe, last, Sizes(p.w, count, summary, p.msgs), p.budget.value);
            if exists i: nat :: FitsLater(p, count, summary, last, i)
            then FitsLater(p, count, summary, last, next)
              && forall i: nat :: FitsLater(p, count, summary, last, i) ==> next <= i
            else next == last
  {
    var size := Sizes(p.w, count, summary, p.msgs);
    assert forall i: nat :: i in p.safe ==> size(i) == count(Inject(p.w, summary, p.msgs, i));
    var next := NextCut(p.safe, last, size, p.budget.value);
    hide NextCut, Sizes, Size, Inject;
  }

  /** Between two requests: the summary was too long, and the next cut is the first candidate with which it would
      have fitted, or the same cut when there is none. */
  lemma NextRequest(p: CutPlan, count: seq<Message> -> int,
                    generate: (seq<Message>, Option<int>, nat) -> Option<string>, sound: bool,
                    r: Result<CompactedHistory, CompactionError>, requests: seq<Request>, k: nat)
    requires Candidates(p.msgs, p.safe, sound) && p.start in p.safe && k + 1 < |requests|
    requires Outcome(p, count, generate, sound, r, requests)
    ensures requests[0].cut == p.start
    ensures var q := requests[k];
            var summary := generate(q.prefix, q.limit, k);
            && q.cut < |p.msgs| && p.budget.Some? && summary.Some?
            && count(Inject(p.w, summary.value, p.msgs, q.cut)) > p.budget.value
            && (if exists i: nat :: FitsLater(p, count, summary.value, q.cut, i)
                then FitsLater(p, count, summary.value, q.cut, requests[k + 1].cut)
                  && forall i: nat :: FitsLater(p, count, summary.value, q.cut, i) ==> requests[k + 1].cut <= i
                else requests[k + 1].cut == q.cut)
  {
    OutcomeTurn(p, count, generate, sound, r, requests, k);
    var q := requests[k];
    var summary := generate(q.prefix, q.limit, k);
    hide Outcome, SummaryLimit, Legal, NextCut, FitsLater, Inject, Sizes;
    CutAfterOne(p, count, generate, requests, k, summary.value);
    NextFits(p, count, summary.value, q.cut);
  }

  lemma CutAfterOne(p: CutPlan, count: seq<Message> -> int,
                    generate: (seq<Message>, Option<int>, nat) -> Option<string>, requests: seq<Request>, k: nat,
                    summary: string)
    requires Ascending(p.safe) && p.start in p.safe && k < |requests| && p.budget.Some?
    requires generate(requests[k].prefix, requests[k].limit, k) == Some(summary) && requests[k].cut in p.safe
    ensures CutAfter(p, count, generate, requests[..k + 1])
            == NextCut(p.safe, requests[k].cut, Sizes(p.w, count, summary, p.msgs), p.budget.value)
  {
    hide NextCut, Sizes;
    assert requests[..k + 1][|requests[..k + 1]| - 1] == requests[k];
  }

  lemma OutcomeTurn(p: CutPlan, count: seq<Message> -> int,
                    generate: (seq<Message>, Option<int>, nat) -> Option<string>, sound: bool,
                    r: Result<CompactedHistory, CompactionError>, requests: seq<Request>, k: nat)
    requires Candidates(p.msgs, p.safe, sound) && p.start in p.safe && k + 1 < |requests|
    requires Outcome(p, count, generate, sound, r, requests)
    ensures requests[0].cut == p.start && requests[k].cut in p.safe
    ensures requests[k + 1].cut == CutAfter(p, count, generate, requests[..k + 1])
    ensures var q := requests[k];
            var g := generate(q.prefix, q.limit, k);
            && p.budget.Some? && g.Some? && q.cut < |p.msgs|
            && count(Inject(p.w, g.value, p.msgs, q.cut)) > p.budget.value
  {
    hide SummaryLimit, Legal, NextCut, CutAfter, Inject, ProperRequests;
    assert InTurn(p, count, generate, requests, 0) && InTurn(p, count, generate, requests, k)
      && InTurn(p, count, generate, requests, k + 1);
    StartsAtStart(p, count, generate, requests);
    InSafe(p, count, generate, requests, k);
  }

  lemma StartsAtStart(p: CutPlan, count: seq<Message> -> int,
                      generate: (seq<Message>, Option<int>, nat) -> Option<string>, requests: seq<Request>)
    requires Ascending(p.safe) && p.start in p.safe
    ensures requests != [] ==> CutAfter(p, count, generate, requests[..0]) == p.start
  {
  }

  lemma InSafe(p: CutPlan, count: seq<Message> -> int,
               generate: (seq<Message>, Option<int>, nat) -> Option<string>, requests: seq<Request>, k: nat)
    requires Ascending(p.safe) && p.start in p.safe && k < |requests| && InTurn(p, count, generate, requests, k)
    ensures requests[k].cut in p.safe
  {
    hide NextCut;
  }

  /** What a finished compaction returns, together with the requests that it made. */
  ghost predicate Outcome(p: CutPlan, count: seq<Message> -> int,
          generate: (seq<Message>, Option<int>, nat) -> Option<string>,
                          sound: bool, r: Result<CompactedHistory, CompactionError>, requests: seq<Request>)
    requires Ascending(p.safe) && p.start in p.safe
  {
    && ProperRequests(p.msgs, requests, p.budget, count, p.w)
    && (forall k :: 0 <= k < |requests| ==> InTurn(p, count, generate, requests, k))
    && match r
       case Success(out) =>
         && requests != []
         && var last := requests[|requests| - 1];
         && Replaces(p.msgs, out, last, p.w)
         && generate(last.prefix, last.limit, |requests| - 1) == Some(out.summary)
         && (p.budget.Some? ==> count(out.messages) <= p.budget.value)
         && (sound ==> Legal(out.messages))
       case Failure(SummaryTooLarge) => |requests| == 3 && TooLong(p, count, generate, requests, 2)
       case Failure(NoRoomForSummary) =>
         && |requests| < 3 && p.budget.Some?
         && SummaryLimit(p.w, count, p.msgs, CutAfter(p, count, generate, requests), p.budget.value, |requests|) <= 0
       case Failure(SummaryFailed) =>
         requests != [] && var last := requests[|requests| - 1]; generate(last.prefix, last.limit, |requests| - 1).None?
       case Failure(_) => false
  }

  lemma AppendInTurn(p: CutPlan, count: seq<Message> -> int,
          generate: (seq<Message>, Option<int>, nat) -> Option<string>,
                     requests: seq<Request>, q: Request)
    requires Ascending(p.safe) && p.start in p.safe
    requires forall k :: 0 <= k < |requests| ==> InTurn(p, count, generate, requests, k)
    requires q.cut == CutAfter(p, count, generate, requests)
    requires requests != [] ==> TooLong(p, count, generate, requests, |requests| - 1)
    ensures forall k :: 0 <= k < |requests| + 1 ==> InTurn(p, count, generate, requests + [q], k)
  {
    hide CutAfter;
    forall k | 0 <= k < |requests| + 1 ensures InTurn(p, count, generate, requests + [q], k) {
      assert (requests + [q])[..k] == requests[..k];
      if k < |requests| {
        assert InTurn(p, count, generate, requests, k);
      } else {
        assert requests[..k] == requests;
      }
    }
  }

  /** Up to three summaries: regenerate with a smaller limit, or at a later cut, until the result fits. */
  method Summarise(p: CutPlan, count: seq<Message> -> int, generate: (seq<Message>, Option<int>, nat) -> Option<string>,
          ghost sound: bool)
    returns (r: Result<CompactedHistory, CompactionError>, requests: seq<Request>)
    requires p.start in p.safe && Candidates(p.msgs, p.safe, sound)
    ensures Outcome(p, count, generate, sound, r, requests)
  {
    hide NextCut, SummaryLimit, Legal;
    var messages, budget := p.msgs, p.budget;
    var cut := p.start;
    requests := [];
    for attempt := 0 to 3
      invariant |requests| == attempt && (budget.None? ==> attempt == 0)
      invariant cut in p.safe && cut == CutAfter(p, count, generate, requests)
      invariant ProperRequests(messages, requests, budget, count, p.w)
      invariant forall k :: 0 <= k < |requests| ==> InTurn(p, count, generate, requests, k)
      invariant requests != [] ==>
          requests[|requests| - 1].cut <= cut && TooLong(p, count, generate, requests, |requests| - 1)
    {
      var limit: Option<int> := None;
      if budget.Some? {
        var tokens := SummaryLimit(p.w, count, messages, cut, budget.value, attempt);
        if tokens <= 0 {
          return Failure(NoRoomForSummary), requests;
        }
        limit := Some(tokens);
      }
      var generated := generate(messages[..cut], limit, attempt);
      var q := Request(cut, messages[..cut], limit);
      AppendRequest(messages, requests, q, budget, count, p.w);
      AppendInTurn(p, count, generate, requests, q);
      requests := requests + [q];
      if generated.None? {
        return Failure(SummaryFailed), requests;
      }
      var injected := Inject(p.w, generated.value, messages, cut);
      if budget.None? || count(injected) <= budget.value {
        InjectLegal(p.w, generated.value, messages, cut);
        return Success(CompactedHistory(injected, generated.value, cut, |messages| - cut)), requests;
      }
      cut := NextCut(p.safe, cut, Sizes(p.w, count, generated.value, messages), budget.value);
    }
    return Failure(SummaryTooLarge), requests;
  }

  /** Keep at least one message and drop at least two. */
  function EffectiveKeep(messages: seq<Message>, keepRecent: Option<int>, defaultKeep: int): int {
    Min(match keepRecent case Some(k) => k case None => defaultKeep, Max(1, |messages| - 2))
  }

  /** From a starting cut: without a budget it is the only candidate, otherwise the first candidate that
      leaves room for a summary is tried first. */
  function PlanFrom(messages: seq<Message>, start: nat, budget: Option<int>, w: Wording,
          count: seq<Message> -> int): (p: CutPlan)
    ensures Ascending(p.safe) && p.start in p.safe && p.msgs == messages && p.budget == budget && p.w == w
  {
    match budget
    case None => CutPlan(messages, start, [start], budget, w)
    case Some(b) =>
      assert start in CandidateCuts(messages, start);
      CutPlan(messages, FirstCut(CandidateCuts(messages, start), Sizes(w, count, "", messages),
          Min(1024, Max(1, b / 3)), b),
           CandidateCuts(messages, start), budget, w)
  }

  /** How much of the budget is set aside for a summary. */
  predicate Reserves(budget: int, reserve: int) {
    if budget >= 3072 then reserve == 1024
    else if budget >= 3 then 3 * reserve <= budget < 3 * (reserve + 1)
    else reserve == 1
  }

  /** The first cut to try: without a budget the starting cut; else the first candidate that leaves the reserve, or
      if none does the one that retains least, and of these the earliest. */
  lemma PlanFromMeets(messages: seq<Message>, start: nat, budget: Option<int>, w: Wording, count: seq<Message> -> int,
          reserve: int)
    requires 0 < start < |messages| && (budget.Some? ==> Reserves(budget.value, reserve))
    ensures var p := PlanFrom(messages, start, budget, w, count);
            && (budget.None? ==> p.start == start && p.safe == [start])
            && (budget.Some? ==>
                  && (forall i: nat :: i in p.safe <==> i == start || (i > start && SafeCut(messages, i)))
                  && FirstTry(messages, p.safe, p.start, budget.value - reserve, w, count))
  {
    hide FirstCut, Legal;
    if budget.Some? {
      assert reserve == Min(1024, Max(1, budget.value / 3));
      var safe := CandidateCuts(messages, start);
      assert start in safe;
      FirstCutTries(messages, safe, budget.value, reserve, w, count);
    }
  }

  ghost predicate FirstTry(messages: seq<Message>, safe: seq<nat>, cut: nat, room: int, w: Wording,
          count: seq<Message> -> int) {
    && cut in safe && (forall i: nat :: i in safe ==> i < |messages|)
    && (if exists i: nat :: i in safe && count(Inject(w, "", messages, i)) <= room
        then count(Inject(w, "", messages, cut)) <= room
          && forall i: nat :: i in safe && count(Inject(w, "", messages, i)) <= room ==> cut <= i
        else forall i: nat :: i in safe ==>
               (count(Inject(w, "", messages, cut)), cut) == (count(Inject(w, "", messages, i)), i)
               || count(Inject(w, "", messages, cut)) < count(Inject(w, "", messages, i))
               || (count(Inject(w, "", messages, cut)) == count(Inject(w, "", messages, i)) && cut < i))
  }

  lemma FirstCutTries(messages: seq<Message>, safe: seq<nat>, budget: int, reserve: int, w: Wording,
          count: seq<Message> -> int)
    requires safe != [] && Ascending(safe) && forall i: nat :: i in safe ==> i < |messages|
    ensures FirstTry(messages, safe, FirstCut(safe, Sizes(w, count, "", messages), reserve, budget), budget - reserve,
        w, count)
  {
    var size := Sizes(w, count, "", messages);
    assert forall i: nat :: i in safe ==> size(i) == count(Inject(w, "", messages, i));
    var cut := FirstCut(safe, size, reserve, budget);
    hide FirstCut, Sizes, Size, Inject;
  }

  /** The budget is the caller's, or one less than the history's own size, whichever is smaller. */
  lemma InputBudgetMeets(msgs: seq<Message>, maxRetained: Option<int>, count: seq<Message> -> int)
    ensures InputBudget(msgs, maxRetained, count).Some? <==> maxRetained.Some?
    ensures maxRetained.Some? ==>
              var b := InputBudget(msgs, maxRetained, count).value;
              b <= maxRetained.value && b < count(msgs) && (b == maxRetained.value || b == count(msgs) - 1)
  {
  }

  /** The result of a compaction, and the requests made for it. */
  ghost predicate Compacted(messages: seq<Message>, keepRecent: Option<int>, defaultKeep: int, maxRetained: Option<int>,
                            trimmed: Option<seq<Message>>, count: seq<Message> -> int,
                            generate: (seq<Message>, Option<int>, nat) -> Option<string>, w: Wording,
                            r: Result<CompactedHistory, CompactionError>, requests: seq<Request>) {
    var starting := StartingCut(messages, trimmed, EffectiveKeep(messages, keepRecent, defaultKeep));
    var budget := InputBudget(messages, maxRetained, count);
    if |messages| <= 2 then r == Failure(TooFewMessages) && requests == []
    else if starting.Failure? then r == Failure(CannotCut(starting.error)) && requests == []
    else if maxRetained.Some? && (maxRetained.value <= 0 || count(messages) <= 1)
      then r == Failure(NoBudget) && requests == []
    else
      var p := PlanFrom(messages, starting.value, budget, w, count);
      Outcome(p, count, generate, SafeCut(messages, starting.value), r, requests)
  }

  method CompactMessageHistory(messages: seq<Message>, keepRecent: Option<int>, defaultKeep: int,
                               maxRetained: Option<int>,
                               trimmed: Option<seq<Message>>, count: seq<Message> -> int,
                               generate: (seq<Message>, Option<int>, nat) -> Option<string>, w: Wording)
    returns (r: Result<CompactedHistory, CompactionError>, requests: seq<Request>)
    // The requests are proper and in turn, the result replaces exactly the summarised prefix, it fits the
    // budget, and no tool group is ever split; each failure says what was in the way.
    ensures Compacted(messages, keepRecent, defaultKeep, maxRetained, trimmed, count, generate, w, r, requests)
    // Under a budget the result is within it and strictly smaller than the original.
    ensures r.Success? && maxRetained.Some? ==>
              count(r.value.messages) <= maxRetained.value && count(r.value.messages) < count(messages)
    // The result is legal when the trimmer's first id is not used earlier; and of a legal history exactly when
    // the first retained message is not a tool result, in particular when the starting cut is not at one.
    ensures r.Success? && TrimSound(messages, trimmed) ==> Legal(r.value.messages)
    ensures r.Success? && Legal(messages) ==>
              var starting := StartingCut(messages, trimmed, EffectiveKeep(messages, keepRecent, defaultKeep));
              && r.value.compactedCount < |messages|
              && (Legal(r.value.messages) <==> !messages[r.value.compactedCount].Tool?)
              && starting.Success? && starting.value < |messages|
              && (!messages[starting.value].Tool? ==> Legal(r.value.messages))
              && (maxRetained.None? ==> r.value.compactedCount == starting.value)
    ensures r.Success? ==> r.value.compactedCount + r.value.keptCount == |messages| && |requests| <= 3
    ensures r.Success? ==> 0 < r.value.compactedCount < |messages|
    ensures r.Success? ==>
              && r.value.messages == Inject(w, r.value.summary, messages, r.value.compactedCount)
              && Injected(w, r.value.summary, messages[r.value.compactedCount..], r.value.messages)
    // Without the trimmer and a budget the cut is the one preferred for the number of messages asked for, of which
    // at least two are summarised.
    ensures r.Success? && maxRetained.None? && TrimmedCut(messages, trimmed).None? ==>
              var wanted := if keepRecent.Some? then keepRecent.value else defaultKeep;
              && (wanted <= |messages| - 2 ==> Preferred(messages, wanted, r.value.compactedCount))
              && (wanted > |messages| - 2 ==> Preferred(messages, |messages| - 2, r.value.compactedCount))
  {
    hide Outcome, FirstCut, CandidateCuts, StartingCut;
    if |messages| <= 2 {
      return Failure(TooFewMessages), [];
    }
    var keep := EffectiveKeep(messages, keepRecent, defaultKeep);
    var starting := StartingCut(messages, trimmed, keep);
    if starting.Failure? {
      return Failure(CannotCut(starting.error)), [];
    }
    var budget := InputBudget(messages, maxRetained, count);
    if budget.Some? && budget.value <= 0 {
      return Failure(NoBudget), [];
    }
    ghost var sound := SafeCut(messages, starting.value);
    StartingCutInRange(messages, trimmed, keep);
    if TrimSound(messages, trimmed) {
      StartingCutSafe(messages, trimmed, keep);
    }
    if Legal(messages) {
      StartingCutSafeIff(messages, trimmed, keep);
    }
    var p := PlanFrom(messages, starting.value, budget, w, count);
    PlanCandidates(messages, starting.value, budget, w, count, sound);
    r, requests := Summarise(p, count, generate, sound);
    OutcomeFacts(p, count, generate, sound, r, requests);
    if r.Success? {
      SuccessCut(p, count, generate, sound, r.value, requests);
      InjectShape(w, r.value.summary, messages, r.value.compactedCount);
      KeepIsWanted(messages, keepRecent, defaultKeep, trimmed, starting.value);
      if Legal(messages) {
        SafeCutIffNotTool(messages, r.value.compactedCount);
      }
    }
  }

  lemma KeepIsWanted(messages: seq<Message>, keepRecent: Option<int>, defaultKeep: int, trimmed: Option<seq<Message>>,
          start: nat)
    requires |messages| > 2 && StartingCut(messages, trimmed, EffectiveKeep(messages, keepRecent, defaultKeep))
        == Success(start)
    ensures TrimmedCut(messages, trimmed).None? ==>
              var wanted := if keepRecent.Some? then keepRecent.value else defaultKeep;
              && (wanted <= |messages| - 2 ==> Preferred(messages, wanted, start))
              && (wanted > |messages| - 2 ==> Preferred(messages, |messages| - 2, start))
  {
    hide Preferred, TrimmedCut, ResolveCutoff;
    ResolveCutoffMeets(messages, EffectiveKeep(messages, keepRecent, defaultKeep));
  }

  lemma PlanCandidates(messages: seq<Message>, start: nat, budget: Option<int>, w: Wording, count: seq<Message> -> int,
          sound: bool)
    requires 0 < start < |messages| && (sound ==> SafeCut(messages, start))
    ensures Candidates(messages, PlanFrom(messages, start, budget, w, count).safe, sound)
  {
    hide FirstCut, Legal;
  }

  lemma OutcomeFacts(p: CutPlan, count: seq<Message> -> int,
          generate: (seq<Message>, Option<int>, nat) -> Option<string>,
                     sound: bool, r: Result<CompactedHistory, CompactionError>, requests: seq<Request>)
    requires Ascending(p.safe) && p.start in p.safe && Outcome(p, count, generate, sound, r, requests)
    ensures r.Success? ==> r.value.compactedCount + r.value.keptCount == |p.msgs| && |requests| <= 3
    ensures r.Success? && p.budget.Some? ==> count(r.value.messages) <= p.budget.value
    ensures r.Success? && sound ==> Legal(r.value.messages)
  {
    hide CutAfter, InTurn, TooLong, SummaryLimit, Legal;
  }

  /** A returned history is legal exactly when its retained suffix is; without a budget that is the suffix
      behind the first candidate. */
  lemma SuccessCut(p: CutPlan, count: seq<Message> -> int, generate: (seq<Message>, Option<int>, nat) -> Option<string>,
                   sound: bool, out: CompactedHistory, requests: seq<Request>)
    requires Ascending(p.safe) && p.start in p.safe && Outcome(p, count, generate, sound, Success(out), requests)
    ensures 0 < out.compactedCount < |p.msgs| && out.messages == Inject(p.w, out.summary, p.msgs, out.compactedCount)
    ensures Legal(out.messages) <==> Legal(p.msgs[out.compactedCount..])
    ensures p.budget.None? ==> out.compactedCount == p.start
  {
    hide NextCut, SummaryLimit, Legal;
    var last := requests[|requests| - 1];
    InjectLegal(p.w, out.summary, p.msgs, last.cut);
    assert InTurn(p, count, generate, requests, |requests| - 1);
  }
}
