/** Seeding a fork: importing a history so that every prompt in it can still be edited. */
module Forking {
  import opened Prelude
  import opened Messages
  import opened Checkpoints

  // ---------------------------------------------------------------- the checkpoint store

  /** The message reducer: a message whose id is already present replaces that message, any other one
      is appended. */
  function AddMessages(left: seq<Message>, right: seq<Message>): seq<Message>
    decreases |right|
  {
    if right == [] then left
    else AddMessages(AddMessage(left, right[0]), right[1..])
  }

  function AddMessage(left: seq<Message>, m: Message): seq<Message> {
    if left == [] then [m]
    else if m.id != "" && left[0].id == m.id then [m] + left[1..]
    else [left[0]] + AddMessage(left[1..], m)
  }

  /** Exactly: the message takes the place of the first one with its id, or comes last. */
  lemma {:induction false} AddMessageMeets(left: seq<Message>, m: Message)
    ensures if m.id != "" && exists k :: FirstWithThatId(left, m.id, k)
            then exists k :: FirstWithThatId(left, m.id, k) && AddMessage(left, m) == left[k := m]
            else AddMessage(left, m) == left + [m]
  {
    if left != [] && !(m.id != "" && left[0].id == m.id) {
      AddMessageMeets(left[1..], m);
      if m.id != "" {
        if k :| FirstWithThatId(left[1..], m.id, k) {
          assert FirstWithThatId(left, m.id, k + 1);
        }
        if k :| FirstWithThatId(left, m.id, k) {
          assert FirstWithThatId(left[1..], m.id, k - 1);
        }
      }
    } else if left != [] {
      assert FirstWithThatId(left, m.id, 0);
    }
  }

  predicate FirstWithThatId(msgs: seq<Message>, id: string, k: int) {
    0 <= k < |msgs| && msgs[k].id == id && forall j :: 0 <= j < k ==> msgs[j].id != id
  }

  lemma {:induction false} AddFreshMessage(left: seq<Message>, m: Message)
    requires m.id != "" ==> forall x :: x in left ==> x.id != m.id
    ensures AddMessage(left, m) == left + [m]
  {
    if left != [] {
      AddFreshMessage(left[1..], m);
    }
  }

  /** On a history with unique ids the reducer appends. */
  lemma {:induction false} AddMessagesAppends(msgs: seq<Message>, i: nat, j: nat)
    requires UniqueIds(msgs) && i <= j <= |msgs|
    ensures AddMessages(msgs[..i], msgs[i..j]) == msgs[..j]
    decreases j - i
  {
    if i < j {
      AddFreshMessage(msgs[..i], msgs[i]);
      assert msgs[..i] + [msgs[i]] == msgs[..i + 1] && msgs[i..j][1..] == msgs[i + 1..j];
      AddMessagesAppends(msgs, i + 1, j);
    }
  }

  /** Batches compose: importing one after the other is importing both at once. */
  lemma {:induction false} AddMessagesCompose(left: seq<Message>, a: seq<Message>, b: seq<Message>)
    ensures AddMessages(AddMessages(left, a), b) == AddMessages(left, a + b)
    decreases |a|
  {
    if a == [] {
      assert a + b == b;
    } else {
      AddMessagesCompose(AddMessage(left, a[0]), a[1..], b);
      assert (a + b)[1..] == a[1..] + b;
    }
  }

  lemma {:induction false} AddMessageKeepsUnique(left: seq<Message>, m: Message)
    requires UniqueIds(left)
    ensures UniqueIds(AddMessage(left, m))
    ensures forall x :: x in AddMessage(left, m) ==> x == m || x in left
  {
    if left != [] && !(m.id != "" && left[0].id == m.id) {
      AddMessageKeepsUnique(left[1..], m);
      var rest := AddMessage(left[1..], m);
      forall j | 0 <= j < |rest| && left[0].id != "" ensures rest[j].id != left[0].id {
        assert rest[j] in rest;
        if rest[j] != m {
          var k :| 0 <= k < |left[1..]| && left[1..][k] == rest[j];
          assert left[k + 1] == rest[j];
        }
      }
    }
  }

  /** The reducer never makes two messages share an id. */
  lemma {:induction false} ReducerKeepsUnique(left: seq<Message>, right: seq<Message>)
    requires UniqueIds(left)
    ensures UniqueIds(AddMessages(left, right))
    decreases |right|
  {
    if right != [] {
      AddMessageKeepsUnique(left, right[0]);
      ReducerKeepsUnique(AddMessage(left, right[0]), right[1..]);
    }
  }

  lemma {:induction false} AddMessageLength(left: seq<Message>, m: Message)
    ensures |AddMessage(left, m)| <= |left| + 1
    ensures m.id != "" && (exists x :: x in left && x.id == m.id) ==> |AddMessage(left, m)| == |left|
  {
    if left != [] {
      AddMessageLength(left[1..], m);
      assert forall x :: x in left <==> x == left[0] || x in left[1..];
    }
  }

  lemma {:induction false} AddMessagesLength(left: seq<Message>, right: seq<Message>)
    ensures |AddMessages(left, right)| <= |left| + |right|
    decreases |right|
  {
    if right != [] {
      AddMessageLength(left, right[0]);
      AddMessagesLength(AddMessage(left, right[0]), right[1..]);
    }
  }

  lemma {:induction false} FullLengthMeansUnique(msgs: seq<Message>, i: nat)
    requires i <= |msgs| && UniqueIds(msgs[..i])
    requires |AddMessages(msgs[..i], msgs[i..])| == |msgs|
    ensures UniqueIds(msgs)
    decreases |msgs| - i
  {
    if i == |msgs| {
      assert msgs[..i] == msgs;
    } else {
      hide UniqueIds, AddMessage;
      var left, m := msgs[..i], msgs[i];
      AddMessageLength(left, m);
      AddMessagesLength(AddMessage(left, m), msgs[i..][1..]);
      AddFreshMessage(left, m);
      assert left + [m] == msgs[..i + 1] && msgs[i..][1..] == msgs[i + 1..];
      FullLengthMeansUnique(msgs, i + 1);
    }
  }

  /** The reducer keeps a history exactly when its ids are unique. */
  lemma ReducerKeepsIffUnique(msgs: seq<Message>)
    ensures AddMessages([], msgs) == msgs <==> UniqueIds(msgs)
  {
    assert msgs[..0] == [] && msgs[0..] == msgs && msgs[..|msgs|] == msgs;
    if UniqueIds(msgs) {
      AddMessagesAppends(msgs, 0, |msgs|);
    }
    if AddMessages([], msgs) == msgs {
      FullLengthMeansUnique(msgs, 0);
    }
  }

  ghost predicate FreshIds(ids: nat -> string) {
    && (forall n :: ids(n) != "")
    && (forall m, n :: ids(m) == ids(n) ==> m == n)
  }

  function MessagesAt(store: seq<Checkpoint>, config: string): seq<Message> {
    match FirstWhere(store, (c: Checkpoint) => c.id == config)
    case None => []
    case Some(c) => c.messages
  }

  /** Writing `values` as a child of the checkpoint named by `config`.  Clearing the scheduled work
      writes nothing, and still makes a new checkpoint. */
  function UpdateState(store: seq<Checkpoint>, config: string, values: seq<Message>,
          ids: nat -> string): seq<Checkpoint> {
    store + [Checkpoint(ids(|store|), config, "", AddMessages(MessagesAt(store, config), values))]
  }

  // ---------------------------------------------------------------- seeding

  /** What the reducer makes of the first `n` messages. */
  function Imported(msgs: seq<Message>, n: nat): seq<Message>
    requires n <= |msgs|
  {
    AddMessages([], msgs[..n])
  }

  /** A chain of checkpoints, of which number `k` holds the first `cuts[k]` messages, as the reducer takes them. */
  ghost predicate IsChain(store: seq<Checkpoint>, msgs: seq<Message>, ids: nat -> string, cuts: seq<nat>) {
    && store != [] && |cuts| == |store| && cuts[0] == 0 && store[0].parent == ""
    && (forall k :: 0 <= k < |store| ==>
        store[k].id == ids(k) && cuts[k] <= |msgs| && store[k].messages == Imported(msgs, cuts[k]))
    && (forall k :: 0 < k < |store| ==> store[k].parent == store[k - 1].id)
    && (forall j, k :: 0 <= j < k < |store| ==> cuts[j] <= cuts[k])
  }

  /** Checkpoint `k` adds exactly message `i` to its parent. */
  ghost predicate AddsOnly(cuts: seq<nat>, i: nat, k: nat) {
    0 < k < |cuts| && cuts[k] == i + 1 && cuts[k - 1] == i
  }

  ghost predicate PromptsSeparate(cuts: seq<nat>, msgs: seq<Message>, n: nat) {
    forall i: nat :: i < n && i < |msgs| && msgs[i].Human? ==> exists k: nat :: AddsOnly(cuts, i, k)
  }

  lemma ChainExtends(store: seq<Checkpoint>, msgs: seq<Message>, ids: nat -> string, cuts: seq<nat>, j: nat)
    requires FreshIds(ids) && IsChain(store, msgs, ids, cuts) && cuts[|store| - 1] <= j <= |msgs|
    ensures var i := cuts[|store| - 1];
            IsChain(UpdateState(store, store[|store| - 1].id, msgs[i..j], ids), msgs, ids, cuts + [j])
  {
    hide AddMessages, MessagesAt;
    var last, i := store[|store| - 1], cuts[|store| - 1];
    LastAtHead(store, last);
    AddMessagesCompose([], msgs[..i], msgs[i..j]);
    assert msgs[..i] + msgs[i..j] == msgs[..j];
  }

  lemma LastAtHead(store: seq<Checkpoint>, last: Checkpoint)
    requires store != [] && last == store[|store| - 1] && forall k :: 0 <= k < |store| - 1 ==> store[k].id != last.id
    ensures MessagesAt(store, last.id) == last.messages
  {
    var found := FirstWhere(store, (c: Checkpoint) => c.id == last.id);
    assert last in store;
    assert found == Some(last);
  }

  lemma PromptsKept(cuts: seq<nat>, j: nat, msgs: seq<Message>, n: nat)
    requires PromptsSeparate(cuts, msgs, n)
    ensures PromptsSeparate(cuts + [j], msgs, n)
  {
    forall i: nat | i < n && i < |msgs| && msgs[i].Human? ensures exists k: nat :: AddsOnly(cuts + [j], i, k) {
      var k: nat :| AddsOnly(cuts, i, k);
      assert AddsOnly(cuts + [j], i, k);
    }
  }

  /** The import of `msgs` up to message `i`: `config` names the head of the chain. */
  ghost predicate Seeding(store: seq<Checkpoint>, config: string, msgs: seq<Message>, ids: nat -> string,
          cuts: seq<nat>, i: nat, n: nat) {
    && IsChain(store, msgs, ids, cuts)
    && config == store[|store| - 1].id && cuts[|store| - 1] == i
    && PromptsSeparate(cuts, msgs, n)
  }

  method Append(store: seq<Checkpoint>, config: string, msgs: seq<Message>, i: nat, j: nat, ids: nat -> string,
          ghost cuts: seq<nat>, ghost n: nat)
    returns (next: seq<Checkpoint>, head: string)
    requires FreshIds(ids) && Seeding(store, config, msgs, ids, cuts, i, n) && i <= j <= |msgs|
    ensures Seeding(next, head, msgs, ids, cuts + [j], j, n)
  {
    ChainExtends(store, msgs, ids, cuts, j);
    next := UpdateState(store, config, msgs[i..j], ids);
    head := next[|next| - 1].id;
    PromptsKept(cuts, j, msgs, n);
  }

  method AppendPrompt(store: seq<Checkpoint>, config: string, msgs: seq<Message>, i: nat, ids: nat -> string,
          ghost cuts: seq<nat>)
    returns (next: seq<Checkpoint>, head: string)
    requires FreshIds(ids) && i < |msgs| && Seeding(store, config, msgs, ids, cuts, i, i)
    ensures Seeding(next, head, msgs, ids, cuts + [i + 1], i + 1, i + 1)
  {
    next, head := Append(store, config, msgs, i, i + 1, ids, cuts, i);
    assert AddsOnly(cuts + [i + 1], i, |cuts|);
  }

  lemma SeedStarts(msgs: seq<Message>, ids: nat -> string)
    ensures var store := UpdateState([], "", [], ids); store != [] && Seeding(store, store[0].id, msgs, ids, [0], 0, 0)
  {
    assert msgs[..0] == [];
  }

  lemma SeedSkips(store: seq<Checkpoint>, config: string, msgs: seq<Message>, ids: nat -> string, cuts: seq<nat>,
          i: nat, n: nat)
    requires Seeding(store, config, msgs, ids, cuts, i, n) && n < |msgs| && !msgs[n].Human?
    ensures Seeding(store, config, msgs, ids, cuts, i, n + 1)
  {
  }

  lemma SeedEnds(store: seq<Checkpoint>, config: string, msgs: seq<Message>, ids: nat -> string, cuts: seq<nat>)
    requires Seeding(store, config, msgs, ids, cuts, |msgs|, |msgs|)
    ensures IsChain(store, msgs, ids, cuts) && config == store[|store| - 1].id && cuts[|store| - 1] == |msgs|
    ensures store[|store| - 1].messages == AddMessages([], msgs)
    ensures store[|store| - 1].messages == msgs <==> UniqueIds(msgs)
    ensures PromptsSeparate(cuts, msgs, |msgs|)
  {
    hide UniqueIds, AddMessages;
    assert msgs[..|msgs|] == msgs;
    ReducerKeepsIffUnique(msgs);
  }

  /** Seeding takes any history; the fork ends with what the reducer makes of it, which is the history itself
      exactly when its ids are unique. */
  method SeedForkHistory(messages: seq<Message>, ids: nat -> string)
    returns (store: seq<Checkpoint>, config: string, ghost cuts: seq<nat>)
    requires FreshIds(ids)
    ensures IsChain(store, messages, ids, cuts) && config == store[|store| - 1].id && cuts[|store| - 1] == |messages|
    ensures store[|store| - 1].messages == AddMessages([], messages)
    ensures store[|store| - 1].messages == messages <==> UniqueIds(messages)
    ensures PromptsSeparate(cuts, messages, |messages|)
  {
    hide Seeding, UpdateState, IsChain, PromptsSeparate, UniqueIds;
    store := UpdateState([], "", [], ids);
    SeedStarts(messages, ids);
    config := store[0].id;
    cuts := [0];
    var start := 0;
    for index := 0 to |messages|
      invariant start <= index && forall i :: start <= i < index ==> !messages[i].Human?
      invariant Seeding(store, config, messages, ids, cuts, start, index)
    {
      if messages[index].Human? {
        if index > start {
          store, config := Append(store, config, messages, start, index, ids, cuts, index);
          cuts := cuts + [index];
          store, config := Append(store, config, messages, index, index, ids, cuts, index);
          cuts := cuts + [index];
        }
        store, config := AppendPrompt(store, config, messages, index, ids, cuts);
        cuts := cuts + [index + 1];
        start := index + 1;
      } else {
        SeedSkips(store, config, messages, ids, cuts, start, index);
      }
    }
    if start < |messages| {
      store, config := Append(store, config, messages, start, |messages|, ids, cuts, |messages|);
      cuts := cuts + [|messages|];
    }
    store, config := Append(store, config, messages, |messages|, |messages|, ids, cuts, |messages|);
    cuts := cuts + [|messages|];
    SeedEnds(store, config, messages, ids, cuts);
  }

  /** No checkpoint of a fork holds two messages with one id, whatever was imported. */
  lemma SeededIdsUnique(store: seq<Checkpoint>, msgs: seq<Message>, ids: nat -> string, cuts: seq<nat>, k: nat)
    requires IsChain(store, msgs, ids, cuts) && k < |store|
    ensures UniqueIds(store[k].messages)
  {
    ReducerKeepsUnique([], msgs[..cuts[k]]);
  }

  /** With unique ids each checkpoint holds a prefix. */
  lemma ChainPrefixes(store: seq<Checkpoint>, msgs: seq<Message>, ids: nat -> string, cuts: seq<nat>)
    requires IsChain(store, msgs, ids, cuts) && UniqueIds(msgs)
    ensures forall k :: 0 <= k < |store| ==> store[k].messages == msgs[..cuts[k]]
  {
    forall k | 0 <= k < |store| ensures store[k].messages == msgs[..cuts[k]] {
      AddMessagesAppends(msgs, 0, cuts[k]);
      assert msgs[..0] == [] && msgs[0..cuts[k]] == msgs[..cuts[k]];
    }
  }

  // ---------------------------------------------------------------- editing a seeded fork

  /** The path of a seeded fork is the whole chain, in order. */
  lemma SeedPath(store: seq<Checkpoint>, msgs: seq<Message>, ids: nat -> string, cuts: seq<nat>, byId: map<string,
          Checkpoint>, path: seq<Checkpoint>)
    requires FreshIds(ids) && IsChain(store, msgs, ids, cuts) && Index(byId, store)
    requires IsPath(byId, store[|store| - 1].id, path)
    ensures path == store
  {
    hide Imported;
    forall k | 0 <= k < |store| ensures store[k].id in byId && byId[store[k].id] == store[k] {
      var i :| LastWithId(store, i, store[k].id) && store[i] == byId[store[k].id];
      assert i == k;
    }
    assert IsPath(byId, store[|store| - 1].id, store);
    PathUnique(byId, store[|store| - 1].id, path, store);
  }

  /** In a seeded fork each prompt is attributed to a checkpoint whose parent holds exactly the
      messages in front of it. */
  lemma SeededPromptSource(store: seq<Checkpoint>, msgs: seq<Message>, ids: nat -> string, cuts: seq<nat>,
          sources: map<nat, (string, string)>, i: nat)
    requires FreshIds(ids) && UniqueIds(msgs) && IsChain(store, msgs, ids, cuts) && PromptsSeparate(cuts, msgs, |msgs|)
    requires Attributes(sources, store, msgs)
    requires i < |msgs| && msgs[i].Human?
    ensures i in sources
    ensures exists k: nat :: AddsOnly(cuts, i, k) && sources[i] == (store[k].id, store[k - 1].id)
  {
    var k: nat :| AddsOnly(cuts, i, k);
    ChainPrefixes(store, msgs, ids, cuts);
    assert forall x :: 0 <= x <= i ==> store[k].messages[x] == msgs[x];
    assert Holds(store[k], msgs, i);
    forall j | 0 <= j < k ensures !Holds(store[j], msgs, i) {
      assert |store[j].messages| == cuts[j] <= cuts[k - 1] == i;
    }
    assert EarliestHolder(store, msgs, i, k);
    var e: nat :| EarliestHolder(store, msgs, i, e) && sources[i] == (store[e].id, store[e].parent);
    assert e == k;
  }

  datatype EditError = IndexOutside | NotAUserMessage | NoParent | UnknownCheckpoint

  /** The lookup that starts an edit: the message to replace and the checkpoint to restart from. */
  function FindMessageSource(store: seq<Checkpoint>, sourceId: string, i: nat): Result<(Message, string), EditError> {
    match FirstWhere(Reversed(store), (c: Checkpoint) => c.id == sourceId)
    case None => Failure(UnknownCheckpoint)
    case Some(c) =>
      if i >= |c.messages| then Failure(IndexOutside)
      else if !c.messages[i].Human? then Failure(NotAUserMessage)
      else if c.parent == "" then Failure(NoParent)
      else Success((c.messages[i], c.parent))
  }

  /** When the lookup accepts, and why it refuses: the newest listed checkpoint with that id decides. */
  lemma FindMessageSourceMeets(store: seq<Checkpoint>, sourceId: string, i: nat)
    ensures var r := FindMessageSource(store, sourceId, i);
            && (r == Failure(UnknownCheckpoint) <==> forall k :: 0 <= k < |store| ==> store[k].id != sourceId)
            && forall k: nat :: LastWithId(store, k, sourceId) ==>
                 && (r == Failure(IndexOutside) <==> i >= |store[k].messages|)
                 && (r == Failure(NotAUserMessage) <==> i < |store[k].messages| && !store[k].messages[i].Human?)
                 && (r == Failure(NoParent) <==>
                       i < |store[k].messages| && store[k].messages[i].Human? && store[k].parent == "")
                 && (r.Success? ==> r.value == (store[k].messages[i], store[k].parent))
  {
    var rev := Reversed(store);
    var p := (c: Checkpoint) => c.id == sourceId;
    var found := FirstWhere(rev, p);
    if found.None? {
      forall k | 0 <= k < |store| ensures store[k].id != sourceId {
        assert rev[|store| - 1 - k] == store[k] && rev[|store| - 1 - k] in rev;
      }
    } else {
      var n :| 0 <= n < |rev| && rev[n] == found.value && p(rev[n]) && forall j :: 0 <= j < n ==> !p(rev[j]);
      assert store[|store| - 1 - n] == found.value;
      forall k: nat | LastWithId(store, k, sourceId) ensures store[k] == found.value {
        assert rev[|store| - 1 - k] == store[k];
        assert n == |store| - 1 - k;
      }
    }
  }

  lemma ChainIdsUnique(store: seq<Checkpoint>, msgs: seq<Message>, ids: nat -> string, cuts: seq<nat>, k: nat)
    requires FreshIds(ids) && IsChain(store, msgs, ids, cuts) && k < |store|
    ensures forall c :: c in store && c.id == store[k].id ==> c == store[k]
    ensures MessagesAt(store, store[k].id) == store[k].messages
  {
    assert store[k] in store;
    var found := FirstWhere(store, (c: Checkpoint) => c.id == store[k].id);
  }

  lemma ReversedMembers(store: seq<Checkpoint>, c: Checkpoint)
    ensures c in Reversed(store) <==> c in store
  {
    var rev := Reversed(store);
    if c in store {
      var k :| 0 <= k < |store| && store[k] == c;
      assert rev[|store| - 1 - k] == c;
    }
    if c in rev {
      var j :| 0 <= j < |rev| && rev[j] == c;
      assert store[|store| - 1 - j] == c;
    }
  }

  lemma FoundByReversed(store: seq<Checkpoint>, k: nat)
    requires k < |store| && forall c :: c in store && c.id == store[k].id ==> c == store[k]
    ensures FirstWhere(Reversed(store), (c: Checkpoint) => c.id == store[k].id) == Some(store[k])
  {
    hide Reversed;
    ReversedMembers(store, store[k]);
    var found := FirstWhere(Reversed(store), (c: Checkpoint) => c.id == store[k].id);
    if found.Some? {
      ReversedMembers(store, found.value);
    }
  }

  lemma EditRestarts(store: seq<Checkpoint>, msgs: seq<Message>, ids: nat -> string, cuts: seq<nat>, i: nat, k: nat)
    requires FreshIds(ids) && UniqueIds(msgs) && IsChain(store, msgs, ids, cuts)
    requires AddsOnly(cuts, i, k) && i < |msgs| && msgs[i].Human?
    ensures FindMessageSource(store, store[k].id, i) == Success((msgs[i], store[k - 1].id))
    ensures MessagesAt(store, store[k - 1].id) == msgs[..i]
  {
    ChainPrefixes(store, msgs, ids, cuts);
    ChainIdsUnique(store, msgs, ids, cuts, k);
    ChainIdsUnique(store, msgs, ids, cuts, k - 1);
    FoundByReversed(store, k);
  }

  /** Seed a fork, walk its path, attribute its messages, and start an edit of prompt `i`: the edit is
      accepted, it replaces that prompt, and it restarts from exactly the history in front of it. */
  method SeededForkIsEditable(messages: seq<Message>, ids: nat -> string, i: nat)
    returns (store: seq<Checkpoint>, restart: Result<(Message, string), EditError>)
    requires FreshIds(ids) && UniqueIds(messages)
    requires i < |messages| && messages[i].Human?
    ensures store != [] && store[|store| - 1].messages == messages
    ensures restart.Success? && restart.value.0 == messages[i]
    ensures MessagesAt(store, restart.value.1) == messages[..i]
  {
    var config;
    ghost var cuts;
    store, config, cuts := SeedForkHistory(messages, ids);
    var path := CheckpointPathToActive(store, config);
    SeedPath(store, messages, ids, cuts, IndexOf(store), path);
    var sources := MessageSourceByIndex(messages, path);
    SeededPromptSource(store, messages, ids, cuts, sources, i);
    restart := FindMessageSource(store, sources[i].0, i);
    ghost var k: nat :| AddsOnly(cuts, i, k) && sources[i] == (store[k].id, store[k - 1].id);
    EditRestarts(store, messages, ids, cuts, i, k);
  }

  /** Without unique ids the reducer merges messages, and so does the import. */
  lemma DuplicateIdsMerge()
    ensures var a, b := Human("x", "one", false), Human("x", "two", false);
            !UniqueIds([a, b]) && AddMessages([], [a, b]) == [b]
  {
    var a, b := Human("x", "one", false), Human("x", "two", false);
    var msgs := [a, b];
    assert msgs[0].id == msgs[1].id;
    assert AddMessages([], msgs) == AddMessages([a], [b]) by { assert msgs[1..] == [b]; }
    assert AddMessages([a], [b]) == AddMessages([b], []) by { assert [b] + [a][1..] == [b]; }
  }
}
