/** What a run does to its history before a model call: compaction inside the run, and channel trimming. */
module ModelContext {
  import opened Prelude
  import opened Messages
  import opened Compaction

  // ---------------------------------------------------------------- channel trimming

  predicate TailAt(messages: seq<Message>, human: bool, i: nat) {
    i < |messages| && (if human then messages[i].Human? else messages[i].Ai?) && Legal(messages[i..])
  }

  /** The last legal tail that starts with a user message, or with an assistant message. */
  ghost predicate LastTail(messages: seq<Message>, human: bool, i: nat) {
    TailAt(messages, human, i) && forall j: nat :: i < j < |messages| ==> !TailAt(messages, human, j)
  }

  method FindLastTail(messages: seq<Message>, human: bool) returns (r: Option<nat>)
    ensures r.Some? ==> LastTail(messages, human, r.value)
    ensures r.None? ==> forall i: nat :: !TailAt(messages, human, i)
  {
    var i := |messages|;
    while i > 0
      invariant i <= |messages|
      invariant forall j: nat :: i <= j < |messages| ==> !TailAt(messages, human, j)
    {
      i := i - 1;
      if TailAt(messages, human, i) {
        return Some(i);
      }
    }
    return None;
  }

  /** What channel trimming keeps: everything when it fits and starts with a user message; else what the trimmer
      keeps when that is legal; else the last legal turn, else the last legal tail, else everything. */
  ghost predicate Trims(messages: seq<Message>, fits: bool, trimmed: seq<Message>, kept: seq<Message>) {
    if messages == [] || (fits && messages[0].Human?) then kept == messages
    else if Legal(trimmed) then kept == trimmed
    else if exists i: nat :: TailAt(messages, true, i) then
      exists i: nat :: LastTail(messages, true, i) && kept == messages[i..]
    else if exists i: nat :: TailAt(messages, false, i) then
      exists i: nat :: LastTail(messages, false, i) && kept == messages[i..]
    else kept == messages
  }

  /** Something else than the whole history is chosen, even if it is equal. */
  ghost predicate TrimChanges(messages: seq<Message>, fits: bool, trimmed: seq<Message>) {
    && messages != [] && !(fits && messages[0].Human?)
    && (Legal(trimmed) || exists i: nat, human :: TailAt(messages, human, i))
  }

  method TrimChannelHistory(messages: seq<Message>, maxTokens: int, count: seq<Message> -> int, trimmed: seq<Message>)
    returns (kept: seq<Message>, changed: bool)
    ensures Trims(messages, count(messages) <= maxTokens, trimmed, kept)
    ensures changed <==> TrimChanges(messages, count(messages) <= maxTokens, trimmed)
    ensures !changed ==> kept == messages
  {
    if messages == [] || (count(messages) <= maxTokens && messages[0].Human?) {
      return messages, false;
    }
    if Legal(trimmed) {
      return trimmed, true;
    }
    var tail := FindLastTail(messages, true);
    if tail.Some? {
      return messages[tail.value..], true;
    }
    tail := FindLastTail(messages, false);
    if tail.Some? {
      return messages[tail.value..], true;
    }
    return messages, false;
  }

  /** Trimming keeps a suffix when the trimmer does, and what it keeps of a legal history, or of one with any
      legal turn, is legal: an oversized latest turn stays consumable. */
  lemma TrimKeepsLegal(messages: seq<Message>, fits: bool, trimmed: seq<Message>, kept: seq<Message>)
    requires Trims(messages, fits, trimmed, kept)
    ensures IsSuffix(trimmed, messages) ==> IsSuffix(kept, messages)
    ensures Legal(messages) ==> Legal(kept)
    ensures !(fits && messages != [] && messages[0].Human?) && (exists i: nat, human :: TailAt(messages, human, i)) ==>
        Legal(kept)
  {
    hide Legal;
    if i: nat :| LastTail(messages, true, i) && kept == messages[i..] {
      assert IsSuffix(kept, messages);
    } else if i: nat :| LastTail(messages, false, i) && kept == messages[i..] {
      assert IsSuffix(kept, messages);
    }
  }

  /** When the trimmer's proposal is of no use, the last legal turn is kept, from a user message if there is one, else
      from an assistant message. */
  lemma TrimKeepsLastTurn(messages: seq<Message>, fits: bool, trimmed: seq<Message>, kept: seq<Message>, i: nat)
    requires Trims(messages, fits, trimmed, kept) && !Legal(trimmed) && i < |messages| && Legal(messages[i..])
    requires !(fits && messages[0].Human?)
    ensures messages[i].Human? ==>
              kept != [] && kept[0].Human? && |kept| <= |messages| - i && IsSuffix(kept, messages)
    ensures messages[i].Ai? && (forall j: nat :: j < |messages| && messages[j].Human? ==> !Legal(messages[j..])) ==>
              kept != [] && kept[0].Ai? && |kept| <= |messages| - i && IsSuffix(kept, messages)
  {
    hide Legal;
    if messages[i].Human? {
      assert TailAt(messages, true, i);
    }
    if messages[i].Ai? {
      assert TailAt(messages, false, i);
    }
  }

  // ---------------------------------------------------------------- before a model call

  /** The history for the call, and whether it takes the place of the stored one; or no room in the model's window. */
  datatype Context = Ready(history: seq<Message>, rewrites: bool) | OverBudget

  /** `base` is the history, or a smaller one within the target that a compaction put in its place, legal exactly
      when what it retains does not start with a tool result. */
  ghost predicate Compacts(history: seq<Message>, base: seq<Message>, target: int, count: seq<Message> -> int,
          w: Wording) {
    || base == history
    || (count(base) < count(history) && count(base) <= target
        && exists cut: nat, text: string ::
          0 < cut < |history| && base == Inject(w, text, history, cut)
          && (Legal(history) ==> (Legal(base) <==> !history[cut].Tool?)))
  }

  ghost predicate TrimsToSuffix(trim: seq<Message> -> seq<Message>) {
    forall msgs: seq<Message> :: IsSuffix(trim(msgs), msgs)
  }

  /** Compaction when the target is reached; its errors are only logged, and its result is taken when it is smaller
      than the history and within the target. */
  method CompactWhenDue(history: seq<Message>, target: int, count: seq<Message> -> int, defaultKeep: int,
                        trimmed: Option<seq<Message>>, inner: seq<Message> -> int,
                        generate: (seq<Message>, Option<int>, nat) -> Option<string>, w: Wording)
    returns (base: seq<Message>, compacted: bool,
             ghost result: Option<Result<CompactedHistory, CompactionError>>)
    ensures Due(history, target, count, defaultKeep, trimmed, inner, generate, w, result)
    ensures compacted <==> Accepted(history, target, count, result)
    ensures base == if compacted then result.value.value.messages else history
    ensures Compacts(history, base, target, count, w)
    ensures Legal(history) && TrimSound(history, trimmed) ==> Legal(base)
  {
    hide Legal, Compacted, TrimSound, Inject;
    result := None;
    if count(history) >= target {
      var out, requests := CompactMessageHistory(history, None, defaultKeep, Some(target - count([])), trimmed, inner,
          generate, w);
      result := Some(out);
      if out.Success? && count(out.value.messages) < count(history) && count(out.value.messages) <= target {
        return out.value.messages, true, result;
      }
    }
    return history, false, result;
  }

  ghost predicate CompactedWith(history: seq<Message>, defaultKeep: int, room: Option<int>,
                                trimmed: Option<seq<Message>>, inner: seq<Message> -> int,
                                generate: (seq<Message>, Option<int>, nat) -> Option<string>, w: Wording,
                                result: Result<CompactedHistory, CompactionError>) {
    exists requests :: Compacted(history, None, defaultKeep, room, trimmed, inner, generate, w, result, requests)
  }

  /** A compaction is made exactly when the target is reached. */
  ghost predicate Due(history: seq<Message>, target: int, count: seq<Message> -> int, defaultKeep: int,
                      trimmed: Option<seq<Message>>, inner: seq<Message> -> int,
                      generate: (seq<Message>, Option<int>, nat) -> Option<string>, w: Wording,
                      result: Option<Result<CompactedHistory, CompactionError>>) {
    && (result.Some? <==> count(history) >= target)
    && (result.Some? ==>
          CompactedWith(history, defaultKeep, Some(target - count([])), trimmed, inner, generate, w, result.value))
  }

  predicate Accepted(history: seq<Message>, target: int, count: seq<Message> -> int,
                     result: Option<Result<CompactedHistory, CompactionError>>) {
    && result.Some? && result.value.Success?
    && count(result.value.value.messages) < count(history) && count(result.value.value.messages) <= target
  }

  /** What is left of `base` after trimming, if that is asked for. */
  ghost predicate TrimsIfDue(base: seq<Message>, threshold: Option<int>, count: seq<Message> -> int,
                             trim: seq<Message> -> seq<Message>, kept: seq<Message>) {
    if threshold.None? then kept == base
    else Trims(base, count(base) <= threshold.value, trim(base), kept)
  }

  /** Compaction before every model call, and channel trimming when it is due. */
  method PrepareModelContext(history: seq<Message>, target: int, hard: int, count: seq<Message> -> int,
                             defaultKeep: int, trimmed: Option<seq<Message>>, inner: seq<Message> -> int,
                             generate: (seq<Message>, Option<int>, nat) -> Option<string>, w: Wording,
                             trimThreshold: Option<int>, trimCount: seq<Message> -> int,
                             trim: seq<Message> -> seq<Message>)
    returns (r: Context, ghost result: Option<Result<CompactedHistory, CompactionError>>, ghost base: seq<Message>,
             ghost kept: seq<Message>)
    // The history is compacted when due, then trimmed when due, and refused exactly when it still does not fit.
    ensures Due(history, target, count, defaultKeep, trimmed, inner, generate, w, result)
    ensures base == if Accepted(history, target, count, result) then result.value.value.messages else history
    ensures TrimsIfDue(base, trimThreshold, trimCount, trim, kept)
    ensures r == if count(kept) > hard then OverBudget else Ready(kept, Accepted(history, target, count, result)
        || (trimThreshold.Some? && TrimChanges(base, trimCount(base) <= trimThreshold.value, trim(base))))
    // A history that is not written back is the stored one, and nothing illegal is made of a legal one.
    ensures Compacts(history, base, target, count, w)
    ensures r.Ready? && !r.rewrites ==> r.history == history
    ensures r.Ready? && TrimsToSuffix(trim) ==> IsSuffix(r.history, base)
    ensures r.Ready? && Legal(base) ==> Legal(r.history)
    ensures Legal(history) && TrimSound(history, trimmed) ==> Legal(base)
  {
    hide Legal, Trims, TrimChanges, Compacts, TrimSound, IsSuffix, Due, Accepted;
    var current, rewrites;
    current, rewrites, result := CompactWhenDue(history, target, count, defaultKeep, trimmed, inner, generate, w);
    base := current;
    assert IsSuffix(base, base) by { SuffixOfItself(base); }
    if trimThreshold.Some? {
      var left, changed := TrimChannelHistory(current, trimThreshold.value, trimCount, trim(current));
      TrimKeepsLegal(current, trimCount(current) <= trimThreshold.value, trim(current), left);
      current, rewrites := left, rewrites || changed;
    }
    kept := current;
    if count(current) > hard {
      return OverBudget, result, base, kept;
    }
    return Ready(current, rewrites), result, base, kept;
  }

  lemma SuffixOfItself(msgs: seq<Message>)
    ensures IsSuffix(msgs, msgs)
  {
    assert msgs[0..] == msgs;
  }
}
