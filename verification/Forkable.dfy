/** Which messages are completed answers that a conversation can be forked from. */
module Forkable {
  import opened Prelude
  import opened Messages

  /** The characters that Python's `str.strip` removes. */
  predicate IsSpace(c: char) {
    var n := c as int;
    || 0x09 <= n <= 0x0D || 0x1C <= n <= 0x20 || n == 0x85 || n == 0xA0 || n == 0x1680
    || 0x2000 <= n <= 0x200A || n in {0x2028, 0x2029, 0x202F, 0x205F, 0x3000}
  }

  predicate IsBlank(s: string) {
    forall c :: c in s ==> IsSpace(c)
  }

  predicate InTurn(m: Message) {
    m.Human? || m.Ai? || m.Tool?
  }

  predicate IsAnswer(m: Message) {
    m.Ai? && m.calls == [] && !IsBlank(m.text) && !m.compacted
  }

  /** `j` is the first user, assistant or tool message after `i`. */
  ghost predicate NextInTurn(msgs: seq<Message>, i: nat, j: nat) {
    i < j < |msgs| && !msgs[j].Other? && forall k :: i < k < j ==> msgs[k].Other?
  }

  /** A visible assistant message that asks for no tool and is no acknowledgement of a summary, with a user message
      next or nothing. */
  ghost predicate IsForkable(msgs: seq<Message>, i: nat) {
    && i < |msgs|
    && msgs[i].Ai? && msgs[i].calls == [] && !msgs[i].compacted && (exists c :: c in msgs[i].text && !IsSpace(c))
    && forall j: nat :: NextInTurn(msgs, i, j) ==> msgs[j].Human?
  }

  ghost predicate LastInTurn(msgs: seq<Message>, n: nat, last: Option<nat>)
    requires n <= |msgs|
  {
    match last
    case None => forall k :: 0 <= k < n ==> !InTurn(msgs[k])
    case Some(i) => i < n && InTurn(msgs[i]) && forall k :: i < k < n ==> !InTurn(msgs[k])
  }

  /** Message `i` is an answer that a user message before index `n` follows. */
  ghost predicate FinishedBefore(msgs: seq<Message>, n: nat, i: nat)
    requires n <= |msgs|
  {
    i < n && IsAnswer(msgs[i]) && exists j: nat :: j < n && NextInTurn(msgs, i, j) && msgs[j].Human?
  }

  method ForkableMessageIndices(messages: seq<Message>) returns (answers: set<nat>)
    ensures forall i: nat :: i in answers <==> IsForkable(messages, i)
  {
    answers := {};
    var last: Option<nat> := None;
    for index := 0 to |messages|
      invariant LastInTurn(messages, index, last)
      invariant forall i: nat :: i in answers <==> FinishedBefore(messages, index, i)
    {
      if messages[index].Human? {
        if last.Some? && IsAnswer(messages[last.value]) {
          answers := answers + {last.value};
        }
      }
      forall i: nat ensures FinishedBefore(messages, index + 1, i) <==>
        FinishedBefore(messages, index, i) || (messages[index].Human? && last == Some(i) && IsAnswer(messages[i]))
      {
        if last == Some(i) {
          assert NextInTurn(messages, i, index) <==> InTurn(messages[index]);
        }
      }
      if InTurn(messages[index]) {
        last := Some(index);
      }
    }
    if last.Some? && IsAnswer(messages[last.value]) {
      answers := answers + {last.value};
    }
    forall i: nat ensures i in answers <==> IsForkable(messages, i) {
      if last != Some(i) && i < |messages| && IsAnswer(messages[i]) {
        NextInTurnExists(messages, i, last);
      }
    }
  }

  lemma NextInTurnExists(msgs: seq<Message>, i: nat, last: Option<nat>)
    requires LastInTurn(msgs, |msgs|, last) && i < |msgs| && InTurn(msgs[i]) && last != Some(i)
    ensures exists j: nat :: NextInTurn(msgs, i, j)
    ensures forall j: nat, k: nat :: NextInTurn(msgs, i, j) && NextInTurn(msgs, i, k) ==> j == k
  {
    var j := i + 1;
    while !InTurn(msgs[j])
      invariant i < j <= last.value
      invariant forall k :: i < k < j ==> !InTurn(msgs[k])
      decreases |msgs| - j
    {
      j := j + 1;
    }
    assert NextInTurn(msgs, i, j);
  }

  /** Cutting a history after a forkable answer leaves the forkable answers up to it unchanged. */
  lemma CutKeepsForkable(msgs: seq<Message>, i: nat, j: nat)
    requires IsForkable(msgs, i) && j <= i
    ensures IsForkable(msgs[..i + 1], j) <==> IsForkable(msgs, j)
  {
    var cut := msgs[..i + 1];
    if IsForkable(cut, j) {
      forall k: nat | NextInTurn(msgs, j, k) ensures msgs[k].Human? {
        if k <= i {
          assert NextInTurn(cut, j, k);
        }
      }
    }
    if IsForkable(msgs, j) {
      forall k: nat | NextInTurn(cut, j, k) ensures cut[k].Human? {
        assert NextInTurn(msgs, j, k);
      }
    }
  }

  /** Forking a legal history at a forkable answer never leaves an incomplete tool call. */
  lemma ForkPrefixLegal(msgs: seq<Message>, i: nat)
    requires Legal(msgs) && IsForkable(msgs, i)
    ensures Legal(msgs[..i + 1])
  {
    assert msgs == msgs[..i] + msgs[i..];
    ScanConcat(msgs[..i], msgs[i..], {});
    assert msgs[i..][0] == msgs[i];
    assert Scan(msgs[..i], {}) == Some({});
    assert msgs[..i + 1] == msgs[..i] + [msgs[i]];
    ScanConcat(msgs[..i], [msgs[i]], {});
    assert Opens(msgs[i]) == {};
    assert Scan([msgs[i]], {}) == Some({});
  }
}
