/** The checkpoint tree of a thread: paths, message sources and edit branches. */
module Checkpoints {
  import opened Prelude
  import opened Messages
  import opened Ordering

  /** A missing id or parent is the empty string. */
  datatype Checkpoint = Checkpoint(id: string, parent: string, ts: string, messages: seq<Message>)

  // ---------------------------------------------------------------- the path to the active checkpoint

  /** The dictionary of a list of checkpoints: later ones replace earlier ones with the same id. */
  ghost function IndexOf(checkpoints: seq<Checkpoint>): (byId: map<string, Checkpoint>)
    ensures Index(byId, checkpoints)
  {
    if checkpoints == [] then map[]
    else
      var n := |checkpoints| - 1;
      var before, c := IndexOf(checkpoints[..n]), checkpoints[n];
      IndexExtends(before, checkpoints[..n], c);
      assert checkpoints[..n] + [c] == checkpoints;
      if c.id != "" then before[c.id := c] else before
  }

  method ById(checkpoints: seq<Checkpoint>) returns (byId: map<string, Checkpoint>)
    ensures byId == IndexOf(checkpoints)
  {
    byId := map[];
    for i := 0 to |checkpoints|
      invariant byId == IndexOf(checkpoints[..i])
    {
      var c := checkpoints[i];
      assert checkpoints[..i + 1][..i] == checkpoints[..i];
      if c.id != "" {
        byId := byId[c.id := c];
      }
    }
    assert checkpoints[..|checkpoints|] == checkpoints;
  }

  lemma IndexExtends(byId: map<string, Checkpoint>, checkpoints: seq<Checkpoint>, c: Checkpoint)
    requires Index(byId, checkpoints)
    ensures Index(if c.id != "" then byId[c.id := c] else byId, checkpoints + [c])
  {
    var next := if c.id != "" then byId[c.id := c] else byId;
    forall id | id in next
      ensures exists i :: LastWithId(checkpoints + [c], i, id) && (checkpoints + [c])[i] == next[id]
    {
      if id == c.id {
        assert LastWithId(checkpoints + [c], |checkpoints|, id);
      } else {
        var i :| LastWithId(checkpoints, i, id) && checkpoints[i] == byId[id];
        assert LastWithId(checkpoints + [c], i, id);
      }
    }
  }

  /** `byId` maps each id in use to the last listed checkpoint with that id. */
  ghost predicate Index(byId: map<string, Checkpoint>, checkpoints: seq<Checkpoint>) {
    && "" !in byId
    && (forall id :: id in byId ==> exists i :: LastWithId(checkpoints, i, id) && checkpoints[i] == byId[id])
    && (forall i :: 0 <= i < |checkpoints| && checkpoints[i].id != "" ==> checkpoints[i].id in byId)
  }

  ghost predicate LastWithId(checkpoints: seq<Checkpoint>, i: int, id: string) {
    0 <= i < |checkpoints| && checkpoints[i].id == id && forall j :: i < j < |checkpoints| ==> checkpoints[j].id != id
  }

  ghost predicate OnPath(path: seq<Checkpoint>, id: string) {
    exists k :: 0 <= k < |path| && path[k].id == id
  }

  /** `path` leads to `active`: it ends there, each entry is the parent of the next, nothing repeats,
      and its first entry has no parent that could be put in front of it. */
  ghost predicate IsPath(byId: map<string, Checkpoint>, active: string, path: seq<Checkpoint>) {
    && (path == [] <==> active !in byId)
    && (path != [] ==> path[|path| - 1] == byId[active])
    && (forall k :: 0 <= k < |path| ==> path[k].id in byId && byId[path[k].id] == path[k])
    && (forall k :: 0 < k < |path| ==> path[k - 1].id == path[k].parent)
    && (forall j, k :: 0 <= j < k < |path| ==> path[j].id != path[k].id)
    && (path != [] ==> path[0].parent !in byId || OnPath(path, path[0].parent))
  }

  /** `walked` is a path read backwards, without any condition on where it may stop. */
  ghost predicate IsWalk(byId: map<string, Checkpoint>, active: string, walked: seq<Checkpoint>) {
    && (walked != [] ==> active in byId && walked[0] == byId[active])
    && (forall k :: 0 <= k < |walked| ==> walked[k].id in byId && byId[walked[k].id] == walked[k])
    && (forall k :: 0 < k < |walked| ==> walked[k].id == walked[k - 1].parent)
    && (forall j, k :: 0 <= j < k < |walked| ==> walked[j].id != walked[k].id)
  }

  lemma WalkReversed(byId: map<string, Checkpoint>, active: string, walked: seq<Checkpoint>)
    requires IsWalk(byId, active, walked)
    requires walked == [] ==> active !in byId
    requires walked != [] ==> var next := walked[|walked| - 1].parent; next !in byId || OnPath(walked, next)
    ensures IsPath(byId, active, Reversed(walked))
  {
    var path := Reversed(walked);
    if walked != [] && OnPath(walked, path[0].parent) {
      var k :| 0 <= k < |walked| && walked[k].id == path[0].parent;
      assert path[|walked| - 1 - k].id == path[0].parent;
    }
  }

  lemma WalkExtends(byId: map<string, Checkpoint>, active: string, walked: seq<Checkpoint>, current: string)
    requires IsWalk(byId, active, walked) && current in byId && byId[current].id == current && !OnPath(walked, current)
    requires if walked == [] then current == active else current == walked[|walked| - 1].parent
    ensures IsWalk(byId, active, walked + [byId[current]])
  {
  }

  /** The walk up the parent links ends on every graph, even on one with cycles. */
  method CheckpointPathToActive(checkpoints: seq<Checkpoint>, active: string) returns (path: seq<Checkpoint>)
    ensures IsPath(IndexOf(checkpoints), active, path)
  {
    hide IndexOf;
    var index := ById(checkpoints);
    assert forall id :: id in index ==> index[id].id == id;
    var walked: seq<Checkpoint> := [];
    var current := active;
    var visited: set<string> := {};
    while current != "" && current !in visited
      invariant visited <= index.Keys
      invariant forall id :: id in visited <==> OnPath(walked, id)
      invariant IsWalk(index, active, walked)
      invariant if walked == [] then current == active else current == walked[|walked| - 1].parent
      decreases index.Keys - visited
    {
      if current !in index {
        break;
      }
      WalkExtends(index, active, walked, current);
      visited := visited + {current};
      VisitedExtends(walked, index[current]);
      walked := walked + [index[current]];
      current := index[current].parent;
    }
    WalkReversed(index, active, walked);
    path := Reversed(walked);
  }

  lemma VisitedExtends(walked: seq<Checkpoint>, c: Checkpoint)
    ensures forall id :: OnPath(walked + [c], id) <==> id == c.id || OnPath(walked, id)
  {
    forall id ensures OnPath(walked + [c], id) <==> id == c.id || OnPath(walked, id) {
      assert (walked + [c])[|walked|] == c;
      if k :| 0 <= k < |walked| && walked[k].id == id {
        assert (walked + [c])[k].id == id;
      }
    }
  }

  function Reversed<T>(xs: seq<T>): (r: seq<T>)
    ensures |r| == |xs|
    ensures forall k :: 0 <= k < |xs| ==> r[k] == xs[|xs| - 1 - k]
  {
    if xs == [] then [] else Reversed(xs[1..]) + [xs[0]]
  }

  /** There is only one path to a checkpoint. */
  lemma PathUnique(byId: map<string, Checkpoint>, active: string, p: seq<Checkpoint>, q: seq<Checkpoint>)
    requires IsPath(byId, active, p) && IsPath(byId, active, q)
    ensures p == q
  {
    if p != [] {
      if |p| <= |q| {
        TailsAgree(byId, active, p, q, |p|);
        PathNotLonger(byId, active, p, q);
      } else {
        TailsAgree(byId, active, q, p, |q|);
        PathNotLonger(byId, active, q, p);
      }
    }
  }

  lemma {:induction false} TailsAgree(byId: map<string, Checkpoint>, active: string, p: seq<Checkpoint>,
          q: seq<Checkpoint>, n: nat)
    requires IsPath(byId, active, p) && IsPath(byId, active, q)
    requires n <= |p| <= |q|
    ensures p[|p| - n..] == q[|q| - n..]
  {
    if n > 0 {
      TailsAgree(byId, active, p, q, n - 1);
      var i, j := |p| - n, |q| - n;
      if n > 1 {
        assert p[i + 1] == p[i + 1..][0] == q[j + 1..][0] == q[j + 1];
        assert p[i].id == p[i + 1].parent && q[j].id == q[j + 1].parent;
      }
      assert p[i] == q[j];
      assert p[i..] == [p[i]] + p[i + 1..] && q[j..] == [q[j]] + q[j + 1..];
    }
  }

  lemma PathNotLonger(byId: map<string, Checkpoint>, active: string, p: seq<Checkpoint>, q: seq<Checkpoint>)
    requires IsPath(byId, active, p) && IsPath(byId, active, q)
    requires p != [] && |p| <= |q| && p == q[|q| - |p|..]
    ensures |p| == |q|
  {
    var d := |q| - |p|;
    assert forall k :: 0 <= k < |p| ==> p[k] == q[d + k];
    if d > 0 {
      ParentNotLater(byId, active, q, d);
    }
  }

  lemma ParentNotLater(byId: map<string, Checkpoint>, active: string, q: seq<Checkpoint>, d: nat)
    requires IsPath(byId, active, q) && 0 < d < |q|
    ensures q[d].parent in byId && forall k :: d <= k < |q| ==> q[k].id != q[d].parent
  {
    assert q[d - 1].id == q[d].parent;
  }

  // ---------------------------------------------------------------- message sources

  /** The comparison key of a message: its type, id, answered call and text. */
  datatype Signature = Signature(kind: string, id: string, callId: string, content: string)

  function SignatureOf(m: Message): Signature {
    match m
    case Human(id, text, _) => Signature("human", id, "", text)
    case Ai(id, text, _, _) => Signature("ai", id, "", text)
    case Tool(id, callId, text) => Signature("tool", id, callId, text)
    case Other(id, kind, text) => Signature(kind, id, "", text)
  }

  function TypeName(m: Message): string {
    match m
    case Human(_, _, _) => "human"
    case Ai(_, _, _, _) => "ai"
    case Tool(_, _, _) => "tool"
    case Other(_, kind, _) => kind
  }

  /** The same message as far as checkpoints are compared: what it is, its id, the call it answers, its text. */
  predicate SameMessage(a: Message, b: Message) {
    && TypeName(a) == TypeName(b) && a.id == b.id && a.text == b.text
    && (if a.Tool? then a.callId else "") == (if b.Tool? then b.callId else "")
  }

  lemma SignatureTells(a: Message, b: Message)
    ensures SignatureOf(a) == SignatureOf(b) <==> SameMessage(a, b)
  {
  }

  function PrefixKey(msgs: seq<Message>, end: nat): (key: seq<Signature>)
    ensures |key| == Min(end, |msgs|)
    ensures forall k :: 0 <= k < |key| ==> key[k] == SignatureOf(msgs[k])
  {
    seq(Min(end, |msgs|), k requires 0 <= k < |msgs| => SignatureOf(msgs[k]))
  }

  /** `c` contains the active history up to and including message `i`. */
  ghost predicate Holds(c: Checkpoint, active: seq<Message>, i: nat) {
    i < |c.messages| && i < |active| && forall k :: 0 <= k <= i ==> SignatureOf(c.messages[k]) == SignatureOf(active[k])
  }

  ghost predicate EarliestHolder(path: seq<Checkpoint>, active: seq<Message>, i: nat, k: nat) {
    k < |path| && Holds(path[k], active, i) && forall j :: 0 <= j < k ==> !Holds(path[j], active, i)
  }

  /** Each message is attributed to the earliest checkpoint of the path that holds its whole prefix. */
  ghost predicate Attributes(sources: map<nat, (string, string)>, path: seq<Checkpoint>, active: seq<Message>) {
    && (forall i: nat :: i in sources ==> exists k: nat ::
        EarliestHolder(path, active, i, k) && sources[i] == (path[k].id, path[k].parent))
    && (forall i: nat, k: nat :: k < |path| && Holds(path[k], active, i) ==> i in sources)
  }

  /** So a checkpoint holds message `i` when it has the same messages up to and including it. */
  lemma HoldsMeans(c: Checkpoint, active: seq<Message>, i: nat)
    ensures Holds(c, active, i) <==>
            && i < |c.messages| && i < |active|
            && forall k :: 0 <= k <= i ==> SameMessage(c.messages[k], active[k])
  {
    hide SignatureOf, SameMessage;
    forall k | 0 <= k < |c.messages| && k < |active|
      ensures SignatureOf(c.messages[k]) == SignatureOf(active[k]) <==> SameMessage(c.messages[k], active[k]) {
      SignatureTells(c.messages[k], active[k]);
    }
  }

  lemma PrefixKeyHolds(c: Checkpoint, active: seq<Message>, i: nat)
    requires i < |c.messages| && i < |active|
    ensures PrefixKey(c.messages, i + 1) == PrefixKey(active, i + 1) <==> Holds(c, active, i)
  {
    var mine, theirs := PrefixKey(c.messages, i + 1), PrefixKey(active, i + 1);
    assert forall k :: 0 <= k <= i ==> mine[k] == SignatureOf(c.messages[k]) && theirs[k] == SignatureOf(active[k]);
    if Holds(c, active, i) {
      assert mine == theirs;
    }
  }

  /** One path entry's turn: its messages in front of `n` have been attributed to it unless they had
      a source already. */
  ghost predicate Attributing(before: map<nat, (string, string)>, sources: map<nat, (string, string)>, c: Checkpoint,
          active: seq<Message>, n: nat) {
    && (forall x: nat :: x in before ==> x in sources && sources[x] == before[x])
    && (forall x: nat :: x in sources && x !in before ==>
        x < n && Holds(c, active, x) && sources[x] == (c.id, c.parent))
    && (forall x: nat :: x < n && Holds(c, active, x) ==> x in sources)
  }

  method AttributeTo(before: map<nat, (string, string)>, c: Checkpoint, active: seq<Message>)
          returns (sources: map<nat, (string, string)>)
    ensures Attributing(before, sources, c, active, Min(|active|, |c.messages|))
  {
    sources := before;
    for i := 0 to Min(|active|, |c.messages|)
      invariant Attributing(before, sources, c, active, i)
    {
      if i !in sources {
        PrefixKeyHolds(c, active, i);
        if PrefixKey(c.messages, i + 1) == PrefixKey(active, i + 1) {
          sources := sources[i := (c.id, c.parent)];
        }
      }
    }
  }

  method MessageSourceByIndex(active: seq<Message>, path: seq<Checkpoint>) returns (sources: map<nat, (string, string)>)
    ensures Attributes(sources, path, active)
  {
    sources := map[];
    for n := 0 to |path|
      invariant Attributes(sources, path[..n], active)
    {
      PrefixStep(path, n);
      ghost var before := sources;
      sources := AttributeTo(sources, path[n], active);
      ExtendAttribution(before, sources, path[..n], path[n], active);
    }
    assert path[..|path|] == path;
  }

  lemma ExtendAttribution(before: map<nat, (string, string)>, after: map<nat, (string, string)>, path: seq<Checkpoint>,
          c: Checkpoint, active: seq<Message>)
    requires Attributes(before, path, active)
    requires forall x: nat :: x in before ==> x in after && after[x] == before[x]
    requires forall x: nat :: x in after && x !in before ==> Holds(c, active, x) && after[x] == (c.id, c.parent)
    requires forall x: nat :: Holds(c, active, x) ==> x in after
    ensures Attributes(after, path + [c], active)
  {
    var longer := path + [c];
    forall i: nat | i in after
      ensures exists k: nat :: EarliestHolder(longer, active, i, k) && after[i] == (longer[k].id, longer[k].parent)
    {
      if i in before {
        var k: nat :| EarliestHolder(path, active, i, k) && before[i] == (path[k].id, path[k].parent);
        assert EarliestHolder(longer, active, i, k);
      } else {
        assert EarliestHolder(longer, active, i, |path|);
      }
    }
    forall i: nat, k: nat | k < |longer| && Holds(longer[k], active, i) ensures i in after {
      if k < |path| {
        assert Holds(path[k], active, i);
      }
    }
  }

  /** Holding a longer prefix implies holding a shorter one, so earliest holders are monotone. */
  lemma EarliestMonotone(path: seq<Checkpoint>, active: seq<Message>, i: nat, j: nat, a: nat, b: nat)
    requires i <= j && EarliestHolder(path, active, i, a) && EarliestHolder(path, active, j, b)
    ensures a <= b
  {
    assert Holds(path[b], active, i);
  }

  lemma SourceOf(sources: map<nat, (string, string)>, path: seq<Checkpoint>, active: seq<Message>, i: nat)
          returns (k: nat)
    requires Attributes(sources, path, active) && i in sources
    ensures EarliestHolder(path, active, i, k) && sources[i] == (path[k].id, path[k].parent)
  {
    k :| EarliestHolder(path, active, i, k) && sources[i] == (path[k].id, path[k].parent);
  }

  lemma PrefixSourced(sources: map<nat, (string, string)>, path: seq<Checkpoint>, active: seq<Message>, i: nat, j: nat,
          k: nat)
    requires Attributes(sources, path, active) && i <= j && EarliestHolder(path, active, j, k)
    ensures i in sources
  {
    assert Holds(path[k], active, i);
  }

  /** Sources are monotone: an earlier message has one too, at a checkpoint that is no later. */
  lemma SourcesMonotone(sources: map<nat, (string, string)>, path: seq<Checkpoint>, active: seq<Message>, i: nat,
          j: nat)
    returns (a: nat, b: nat)
    requires Attributes(sources, path, active) && i <= j && j in sources
    ensures i in sources && a <= b < |path|
    ensures EarliestHolder(path, active, i, a) && sources[i] == (path[a].id, path[a].parent)
    ensures EarliestHolder(path, active, j, b) && sources[j] == (path[b].id, path[b].parent)
  {
    b := SourceOf(sources, path, active, j);
    PrefixSourced(sources, path, active, i, j, b);
    a := SourceOf(sources, path, active, i);
    EarliestMonotone(path, active, i, j, a, b);
  }

  // ---------------------------------------------------------------- leaves and branches

  predicate Earlier(a: Checkpoint, b: Checkpoint) {
    Before(a.ts, b.ts) || (a.ts == b.ts && Before(a.id, b.id))
  }

  lemma EarlierIsKeyOrder()
    ensures KeyOrder(Earlier)
  {
    forall a, b | Earlier(a, b) ensures !Earlier(b, a) {
      if Before(a.ts, b.ts) && Before(b.ts, a.ts) { BeforeTransitive(a.ts, b.ts, a.ts); }
      if Before(a.id, b.id) && Before(b.id, a.id) { BeforeTransitive(a.id, b.id, a.id); }
      BeforeIrreflexive(a.ts);
      BeforeIrreflexive(a.id);
    }
    forall a, b, c | !Earlier(b, a) && !Earlier(c, b) ensures !Earlier(c, a) {
      NotEarlierTransitive(a, b, c);
    }
  }

  lemma NotEarlierTransitive(a: Checkpoint, b: Checkpoint, c: Checkpoint)
    requires !Earlier(b, a) && !Earlier(c, b)
    ensures !Earlier(c, a)
  {
    BeforeTotal(a.ts, b.ts);
    BeforeTotal(b.ts, c.ts);
    BeforeTotal(a.id, b.id);
    BeforeTotal(b.id, c.id);
    BeforeIrreflexive(a.ts);
    BeforeIrreflexive(a.id);
    if Before(a.ts, b.ts) && Before(b.ts, c.ts) { BeforeTransitive(a.ts, b.ts, c.ts); }
    if Before(a.id, b.id) && Before(b.id, c.id) { BeforeTransitive(a.id, b.id, c.id); }
    if Before(c.ts, a.ts) && Before(a.ts, c.ts) { BeforeTransitive(a.ts, c.ts, a.ts); }
    if Before(c.id, a.id) && Before(a.id, c.id) { BeforeTransitive(a.id, c.id, a.id); }
  }

  predicate IsLeaf(c: Checkpoint, checkpoints: seq<Checkpoint>) {
    c.id != "" && c.messages != [] && forall d :: d in checkpoints ==> d.parent != c.id
  }

  function LeafCheckpoints(checkpoints: seq<Checkpoint>): seq<Checkpoint> {
    SortBy(Filter(checkpoints, c => IsLeaf(c, checkpoints)), Earlier)
  }

  /** The leaves are the non-empty checkpoints that no other one names as its parent, oldest first. */
  lemma LeavesMeet(checkpoints: seq<Checkpoint>)
    ensures forall c :: c in LeafCheckpoints(checkpoints) <==>
              && c in checkpoints && c.id != "" && c.messages != []
              && forall d :: d in checkpoints ==> d.parent != c.id
    ensures forall i, j :: 0 <= i < j < |LeafCheckpoints(checkpoints)| ==>
              var a, b := LeafCheckpoints(checkpoints)[i], LeafCheckpoints(checkpoints)[j];
              Before(a.ts, b.ts) || (a.ts == b.ts && (a.id == b.id || Before(a.id, b.id)))
  {
    EarlierIsKeyOrder();
    var leaves := Filter(checkpoints, c => IsLeaf(c, checkpoints));
    SortBySorts(leaves, Earlier);
    assert forall c :: c in leaves <==> c in multiset(leaves);
    assert forall c :: c in LeafCheckpoints(checkpoints) <==> c in multiset(LeafCheckpoints(checkpoints));
    hide LeafCheckpoints;
    var sorted := LeafCheckpoints(checkpoints);
    forall i, j | 0 <= i < j < |sorted|
      ensures Before(sorted[i].ts, sorted[j].ts)
              || (sorted[i].ts == sorted[j].ts && (sorted[i].id == sorted[j].id || Before(sorted[i].id, sorted[j].id)))
    {
      BeforeTotal(sorted[i].ts, sorted[j].ts);
      BeforeTotal(sorted[i].id, sorted[j].id);
    }
  }

  /** One alternative of an edited prompt: its signature, the leaf it leads to, and its text. */
  datatype Choice = Choice(signature: Signature, checkpointId: string, text: string)

  datatype Branch = Branch(current: nat, total: nat, options: seq<Choice>)

  /** Assignment in an insertion-ordered dictionary. */
  function Put(options: seq<Choice>, c: Choice): seq<Choice> {
    if options == [] then [c]
    else if options[0].signature == c.signature then [c] + options[1..]
    else [options[0]] + Put(options[1..], c)
  }

  /** The leaf shares the active history in front of message `i` and has a user message there. */
  predicate Sibling(leaf: Checkpoint, active: seq<Message>, i: nat)
    requires i < |active|
  {
    && i < |leaf.messages|
    && leaf.messages[i].Human?
    && PrefixKey(leaf.messages, i) == PrefixKey(active, i)
    && leaf.id != ""
  }

  function ChoiceOf(leaf: Checkpoint, i: nat): Choice
    requires i < |leaf.messages|
  {
    Choice(SignatureOf(leaf.messages[i]), leaf.id, leaf.messages[i].text)
  }

  /** Leaf `n` is the last listed one that offers `signature` at message `i`. */
  ghost predicate NewestOffer(leaves: seq<Checkpoint>, active: seq<Message>, i: nat, signature: Signature, n: nat)
    requires i < |active|
  {
    && n < |leaves|
    && Sibling(leaves[n], active, i) && SignatureOf(leaves[n].messages[i]) == signature
    && forall m :: n < m < |leaves| && Sibling(leaves[m], active, i) ==> SignatureOf(leaves[m].messages[i]) != signature
  }

  /** The options partition the sibling leaves by signature, each showing its newest leaf. */
  ghost predicate Partition(options: seq<Choice>, leaves: seq<Checkpoint>, active: seq<Message>, i: nat)
    requires i < |active|
  {
    && (forall a, b :: 0 <= a < b < |options| ==> options[a].signature != options[b].signature)
    && (forall c :: c in options ==> exists n: nat ::
        NewestOffer(leaves, active, i, c.signature, n) && c == ChoiceOf(leaves[n], i))
    && (forall n :: 0 <= n < |leaves| && Sibling(leaves[n], active, i) ==> exists c ::
        c in options && c.signature == SignatureOf(leaves[n].messages[i]))
  }

  predicate Offers(leaf: Checkpoint, active: seq<Message>, i: nat, signature: Signature)
    requires i < |active|
  {
    Sibling(leaf, active, i) && SignatureOf(leaf.messages[i]) == signature
  }

  /** Leaf `n` offers `a`, and no leaf up to it offers `b`. */
  ghost predicate OffersFirst(leaves: seq<Checkpoint>, active: seq<Message>, i: nat, a: Signature, b: Signature, n: nat)
    requires i < |active|
  {
    n < |leaves| && Offers(leaves[n], active, i, a) && forall m :: 0 <= m <= n ==> !Offers(leaves[m], active, i, b)
  }

  /** The options stand in the order in which the leaves first offer them. */
  ghost predicate InOrder(options: seq<Choice>, leaves: seq<Checkpoint>, active: seq<Message>, i: nat)
    requires i < |active|
  {
    forall a, b :: 0 <= a < b < |options| ==>
        OfferedBefore(leaves, active, i, options[a].signature, options[b].signature)
  }

  ghost predicate OfferedBefore(leaves: seq<Checkpoint>, active: seq<Message>, i: nat, a: Signature, b: Signature)
    requires i < |active|
  {
    exists n: nat :: OffersFirst(leaves, active, i, a, b, n)
  }

  lemma {:induction false} PutPlaces(options: seq<Choice>, c: Choice)
    ensures var r := Put(options, c);
            if exists k :: 0 <= k < |options| && options[k].signature == c.signature
            then |r| == |options| && forall k :: 0 <= k < |r| ==> r[k].signature == options[k].signature
            else r == options + [c]
  {
    if options != [] && options[0].signature != c.signature {
      PutPlaces(options[1..], c);
      assert forall k :: 0 < k < |options| ==> options[k] == options[1..][k - 1];
    }
  }

  lemma OrderStays(leaves: seq<Checkpoint>, leaf: Checkpoint, active: seq<Message>, i: nat, x: Signature, y: Signature)
    requires i < |active| && OfferedBefore(leaves, active, i, x, y)
    ensures OfferedBefore(leaves + [leaf], active, i, x, y)
  {
    hide Offers;
    var n: nat :| OffersFirst(leaves, active, i, x, y, n);
    assert OffersFirst(leaves + [leaf], active, i, x, y, n);
  }

  /** A signature that no option has has not been offered yet. */
  lemma NewIsLast(options: seq<Choice>, leaves: seq<Checkpoint>, active: seq<Message>, i: nat, c: Choice, y: Signature)
    requires i < |active| && Partition(options, leaves, active, i) && c in options
    requires forall d :: d in options ==> d.signature != y
    ensures OfferedBefore(leaves, active, i, c.signature, y)
  {
    hide PrefixKey, SignatureOf;
    var n: nat :| NewestOffer(leaves, active, i, c.signature, n);
    assert OffersFirst(leaves, active, i, c.signature, y, n);
  }

  lemma ExtendOrder(options: seq<Choice>, leaves: seq<Checkpoint>, leaf: Checkpoint, active: seq<Message>, i: nat)
    requires i < |active| && Partition(options, leaves, active, i) && InOrder(options, leaves, active, i)
    ensures InOrder(AddOffer(options, leaf, active, i), leaves + [leaf], active, i)
  {
    hide Partition, PrefixKey, SignatureOf, OfferedBefore, Put;
    var next := AddOffer(options, leaf, active, i);
    if Sibling(leaf, active, i) {
      PutPlaces(options, ChoiceOf(leaf, i));
    }
    forall a, b | 0 <= a < b < |next|
      ensures OfferedBefore(leaves + [leaf], active, i, next[a].signature, next[b].signature) {
      if b == |options| {
        NewIsLast(options, leaves, active, i, options[a], next[b].signature);
      }
      OrderStays(leaves, leaf, active, i, next[a].signature, next[b].signature);
    }
  }

  lemma {:induction false} PutMeets(options: seq<Choice>, c: Choice)
    requires forall a, b :: 0 <= a < b < |options| ==> options[a].signature != options[b].signature
    ensures var r := Put(options, c);
            && (forall a, b :: 0 <= a < b < |r| ==> r[a].signature != r[b].signature)
            && (forall x :: x in r <==> x == c || (x in options && x.signature != c.signature))
  {
    if options != [] {
      assert forall x :: x in options <==> x == options[0] || x in options[1..];
      var r := Put(options, c);
      if options[0].signature == c.signature {
        assert forall x :: x in r <==> x == c || x in options[1..];
      } else {
        PutMeets(options[1..], c);
        assert r[1..] == Put(options[1..], c);
        assert forall x :: x in r <==> x == options[0] || x in r[1..];
        forall b | 0 < b < |r| ensures r[b].signature != r[0].signature {
          assert r[b] in r[1..];
        }
      }
    }
  }

  function AddOffer(options: seq<Choice>, leaf: Checkpoint, active: seq<Message>, i: nat): seq<Choice>
    requires i < |active|
  {
    if Sibling(leaf, active, i) then Put(options, ChoiceOf(leaf, i)) else options
  }

  lemma LastOffer(leaves: seq<Checkpoint>, leaf: Checkpoint, active: seq<Message>, i: nat)
    requires i < |active| && Sibling(leaf, active, i)
    ensures NewestOffer(leaves + [leaf], active, i, ChoiceOf(leaf, i).signature, |leaves|)
  {
  }

  lemma OfferStays(leaves: seq<Checkpoint>, leaf: Checkpoint, active: seq<Message>, i: nat, signature: Signature,
          n: nat)
    requires i < |active| && NewestOffer(leaves, active, i, signature, n)
    requires Sibling(leaf, active, i) ==> signature != SignatureOf(leaf.messages[i])
    ensures NewestOffer(leaves + [leaf], active, i, signature, n)
  {
    hide SignatureOf;
  }

  lemma ExtendNewest(options: seq<Choice>, leaves: seq<Checkpoint>, leaf: Checkpoint, active: seq<Message>, i: nat,
          c: Choice)
    requires i < |active| && Partition(options, leaves, active, i)
    requires (Sibling(leaf, active, i) && c == ChoiceOf(leaf, i))
        || (c in options && (Sibling(leaf, active, i) ==> c.signature != SignatureOf(leaf.messages[i])))
    ensures exists n: nat ::
        NewestOffer(leaves + [leaf], active, i, c.signature, n) && c == ChoiceOf((leaves + [leaf])[n], i)
  {
    hide SignatureOf;
    var longer := leaves + [leaf];
    if Sibling(leaf, active, i) && c == ChoiceOf(leaf, i) {
      LastOffer(leaves, leaf, active, i);
    } else {
      var n: nat :| NewestOffer(leaves, active, i, c.signature, n) && c == ChoiceOf(leaves[n], i);
      OfferStays(leaves, leaf, active, i, c.signature, n);
    }
  }

  lemma ExtendPartition(options: seq<Choice>, leaves: seq<Checkpoint>, leaf: Checkpoint, active: seq<Message>, i: nat)
    requires i < |active| && Partition(options, leaves, active, i)
    ensures Partition(AddOffer(options, leaf, active, i), leaves + [leaf], active, i)
  {
    var longer := leaves + [leaf];
    var next := AddOffer(options, leaf, active, i);
    if Sibling(leaf, active, i) {
      PutMeets(options, ChoiceOf(leaf, i));
    }
    forall c | c in next
      ensures exists n: nat :: NewestOffer(longer, active, i, c.signature, n) && c == ChoiceOf(longer[n], i)
    {
      ExtendNewest(options, leaves, leaf, active, i, c);
    }
    forall n | 0 <= n < |longer| && Sibling(longer[n], active, i)
      ensures exists c :: c in next && c.signature == SignatureOf(longer[n].messages[i])
    {
      if n < |leaves| {
        var c :| c in options && c.signature == SignatureOf(leaves[n].messages[i]);
        assert c in next || (ChoiceOf(leaf, i) in next && c.signature == ChoiceOf(leaf, i).signature);
      }
    }
  }

  lemma NoOffers(active: seq<Message>, i: nat)
    requires i < |active|
    ensures Partition([], [], active, i) && InOrder([], [], active, i)
  {
  }

  method BranchOptions(active: seq<Message>, leaves: seq<Checkpoint>, i: nat) returns (options: seq<Choice>)
    requires i < |active|
    ensures Partition(options, leaves, active, i) && InOrder(options, leaves, active, i)
  {
    hide InOrder, Partition, AddOffer;
    options := [];
    NoOffers(active, i);
    for n := 0 to |leaves|
      invariant Partition(options, leaves[..n], active, i) && InOrder(options, leaves[..n], active, i)
    {
      assert leaves[..n + 1] == leaves[..n] + [leaves[n]];
      ExtendOrder(options, leaves[..n], leaves[n], active, i);
      ExtendPartition(options, leaves[..n], leaves[n], active, i);
      options := AddOffer(options, leaves[n], active, i);
    }
    assert leaves[..|leaves|] == leaves;
  }

  /** A branch is shown exactly for a prompt with two or more alternatives; its total is the number of
      different signatures, and `current` points at the active one when it is among them. */
  ghost predicate BranchFor(b: Branch, leaves: seq<Checkpoint>, active: seq<Message>, i: nat)
    requires i < |active|
  {
    && Partition(b.options, leaves, active, i) && InOrder(b.options, leaves, active, i)
    && b.total == |b.options| == |Alternatives(leaves, active, i)| >= 2
    && 1 <= b.current <= b.total
    && (SignatureOf(active[i]) in Alternatives(leaves, active, i) && DistinctIds(leaves) ==>
          b.options[b.current - 1].signature == SignatureOf(active[i]))
    && (SignatureOf(active[i]) !in Alternatives(leaves, active, i) ==> b.current == 1)
  }

  ghost predicate DistinctIds(checkpoints: seq<Checkpoint>) {
    forall a, b :: 0 <= a < b < |checkpoints| ==> checkpoints[a].id != checkpoints[b].id
  }

  ghost function Alternatives(leaves: seq<Checkpoint>, active: seq<Message>, i: nat): set<Signature>
    requires i < |active|
  {
    set n | 0 <= n < |leaves| && Sibling(leaves[n], active, i) :: SignatureOf(leaves[n].messages[i])
  }

  lemma AlternativesOffered(options: seq<Choice>, leaves: seq<Checkpoint>, active: seq<Message>, i: nat)
    requires i < |active| && Partition(options, leaves, active, i)
    ensures Alternatives(leaves, active, i) <= set c | c in options :: c.signature
  {
    hide Sibling, SignatureOf;
    forall s | s in Alternatives(leaves, active, i) ensures exists c :: c in options && c.signature == s {
      AlternativeOffered(options, leaves, active, i, s);
    }
  }

  lemma OfferedAlternatives(options: seq<Choice>, leaves: seq<Checkpoint>, active: seq<Message>, i: nat)
    requires i < |active| && Partition(options, leaves, active, i)
    ensures forall c :: c in options ==> c.signature in Alternatives(leaves, active, i)
  {
    hide SignatureOf, PrefixKey;
    forall c | c in options ensures c.signature in Alternatives(leaves, active, i) {
      var n: nat :| NewestOffer(leaves, active, i, c.signature, n) && c == ChoiceOf(leaves[n], i);
    }
  }

  lemma PartitionCounts(options: seq<Choice>, leaves: seq<Checkpoint>, active: seq<Message>, i: nat)
    requires i < |active| && Partition(options, leaves, active, i)
    ensures |options| == |Alternatives(leaves, active, i)|
  {
    hide Sibling, SignatureOf, Alternatives;
    DistinctCount(options);
    AlternativesOffered(options, leaves, active, i);
    OfferedAlternatives(options, leaves, active, i);
    assert Alternatives(leaves, active, i) == set c | c in options :: c.signature;
  }

  lemma {:induction false} DistinctCount(options: seq<Choice>)
    requires forall a, b :: 0 <= a < b < |options| ==> options[a].signature != options[b].signature
    ensures |set c | c in options :: c.signature| == |options|
  {
    if options != [] {
      DistinctCount(options[1..]);
      var rest := set c | c in options[1..] :: c.signature;
      assert (set c | c in options :: c.signature) == rest + {options[0].signature} by {
        assert forall c :: c in options <==> c == options[0] || c in options[1..];
      }
      assert options[0].signature !in rest;
    }
  }

  /** With distinct leaf ids, options that lead to the same leaf are the same option. */
  lemma SameLeafSameOption(options: seq<Choice>, leaves: seq<Checkpoint>, active: seq<Message>, i: nat, c: Choice,
          d: Choice)
    requires i < |active| && Partition(options, leaves, active, i) && DistinctIds(leaves)
    requires c in options && d in options && c.checkpointId == d.checkpointId
    ensures c.signature == d.signature
  {
    var n: nat :| NewestOffer(leaves, active, i, c.signature, n) && c == ChoiceOf(leaves[n], i);
    var m: nat :| NewestOffer(leaves, active, i, d.signature, m) && d == ChoiceOf(leaves[m], i);
    assert leaves[n].id == leaves[m].id;
  }

  lemma AlternativeOffered(options: seq<Choice>, leaves: seq<Checkpoint>, active: seq<Message>, i: nat, s: Signature)
    requires i < |active| && Partition(options, leaves, active, i) && s in Alternatives(leaves, active, i)
    ensures exists c :: c in options && c.signature == s
  {
    var n :| 0 <= n < |leaves| && Sibling(leaves[n], active, i) && SignatureOf(leaves[n].messages[i]) == s;
  }

  method IndexOfLeaf(options: seq<Choice>, id: string) returns (index: nat)
    requires exists k :: 0 <= k < |options| && options[k].checkpointId == id
    ensures index < |options| && options[index].checkpointId == id
  {
    index := 0;
    while options[index].checkpointId != id
      invariant index < |options|
      invariant forall k :: 0 <= k < index ==> options[k].checkpointId != id
      decreases |options| - index
    {
      index := index + 1;
    }
  }

  /** The option at `index` leads to the leaf of `signature` if that is among the options, and is the first one
      otherwise. */
  ghost predicate PointsAt(options: seq<Choice>, signature: Signature, index: nat) {
    && index < |options|
    && (forall c :: c in options && c.signature == signature ==>
          exists d :: d in options && d.signature == signature && options[index].checkpointId == d.checkpointId)
    && ((forall c :: c in options ==> c.signature != signature) ==> index == 0)
  }

  /** The position shown as current: the first option that leads to the active signature's leaf. */
  method CurrentOption(active: seq<Message>, options: seq<Choice>, i: nat) returns (index: nat)
    requires i < |active| && options != []
    ensures index < |options|
    ensures PointsAt(options, SignatureOf(active[i]), index)
  {
    var current := FirstWhere(options, (c: Choice) => c.signature == SignatureOf(active[i]));
    if current.None? {
      return 0;
    }
    assert current.value in options;
    index := IndexOfLeaf(options, current.value.checkpointId);
  }

  lemma CurrentIsActive(options: seq<Choice>, leaves: seq<Checkpoint>, active: seq<Message>, i: nat, index: nat)
    requires i < |active| && Partition(options, leaves, active, i) && DistinctIds(leaves)
    requires index < |options| && SignatureOf(active[i]) in Alternatives(leaves, active, i)
    requires PointsAt(options, SignatureOf(active[i]), index)
    ensures options[index].signature == SignatureOf(active[i])
  {
    AlternativeOffered(options, leaves, active, i, SignatureOf(active[i]));
    var d :| d in options && d.signature == SignatureOf(active[i]) && options[index].checkpointId == d.checkpointId;
    SameLeafSameOption(options, leaves, active, i, d, options[index]);
  }

  lemma AbsentMeansFirst(options: seq<Choice>, signature: Signature, index: nat, offered: set<Signature>)
    requires PointsAt(options, signature, index) && forall c :: c in options ==> c.signature in offered
    ensures signature !in offered ==> index == 0
  {
  }

  lemma BranchMeets(options: seq<Choice>, leaves: seq<Checkpoint>, active: seq<Message>, i: nat, index: nat)
    requires i < |active| && Partition(options, leaves, active, i) && InOrder(options, leaves, active, i)
    requires index < |options| && |options| >= 2
    requires PointsAt(options, SignatureOf(active[i]), index)
    ensures BranchFor(Branch(index + 1, |options|, options), leaves, active, i)
  {
    hide Partition, InOrder, SignatureOf, Alternatives, DistinctIds, PointsAt;
    PartitionCounts(options, leaves, active, i);
    OfferedAlternatives(options, leaves, active, i);
    AbsentMeansFirst(options, SignatureOf(active[i]), index, Alternatives(leaves, active, i));
    if DistinctIds(leaves) && SignatureOf(active[i]) in Alternatives(leaves, active, i) {
      CurrentIsActive(options, leaves, active, i, index);
    }
  }

  method BranchAt(active: seq<Message>, leaves: seq<Checkpoint>, i: nat) returns (b: Option<Branch>)
    requires i < |active|
    ensures b.Some? <==> |Alternatives(leaves, active, i)| >= 2
    ensures b.Some? ==> BranchFor(b.value, leaves, active, i)
  {
    hide Partition, InOrder, SignatureOf, Alternatives, DistinctIds, BranchFor;
    var options := BranchOptions(active, leaves, i);
    PartitionCounts(options, leaves, active, i);
    if |options| <= 1 {
      return None;
    }
    var index := CurrentOption(active, options, i);
    BranchMeets(options, leaves, active, i, index);
    return Some(Branch(index + 1, |options|, options));
  }

  ghost predicate BranchesUpTo(branches: map<nat, Branch>, leaves: seq<Checkpoint>, active: seq<Message>, n: nat)
    requires n <= |active|
  {
    && (forall i: nat :: i in branches <==> i < n && active[i].Human? && |Alternatives(leaves, active, i)| >= 2)
    && (forall i: nat :: i in branches ==> BranchFor(branches[i], leaves, active, i))
  }

  lemma ExtendBranches(branches: map<nat, Branch>, leaves: seq<Checkpoint>, active: seq<Message>, i: nat, b: Branch)
    requires i < |active| && active[i].Human? && BranchesUpTo(branches, leaves, active, i)
    requires |Alternatives(leaves, active, i)| >= 2 && BranchFor(b, leaves, active, i)
    ensures BranchesUpTo(branches[i := b], leaves, active, i + 1)
  {
    hide BranchFor, Alternatives;
    var next := branches[i := b];
    forall x: nat | x in next ensures BranchFor(next[x], leaves, active, x) {
      if x != i {
        assert x in branches;
      }
    }
  }

  method BranchMetadataByIndex(active: seq<Message>, leaves: seq<Checkpoint>) returns (branches: map<nat, Branch>)
    ensures BranchesUpTo(branches, leaves, active, |active|)
  {
    branches := map[];
    for i := 0 to |active|
      invariant BranchesUpTo(branches, leaves, active, i)
    {
      if active[i].Human? {
        var b := BranchAt(active, leaves, i);
        if b.Some? {
          ExtendBranches(branches, leaves, active, i, b.value);
          branches := branches[i := b.value];
        }
      }
    }
  }

  // ---------------------------------------------------------------- edits and branches

  /** Leaf `n` has the same messages in front of `i`, and a user message there. */
  predicate Continues(leaves: seq<Checkpoint>, active: seq<Message>, i: nat, n: nat)
    requires i < |active|
  {
    && n < |leaves| && leaves[n].id != "" && i < |leaves[n].messages| && leaves[n].messages[i].Human?
    && forall k :: 0 <= k < i ==> SameMessage(leaves[n].messages[k], active[k])
  }

  lemma ContinuesIsSibling(leaves: seq<Checkpoint>, active: seq<Message>, i: nat, n: nat)
    requires i < |active| && n < |leaves|
    ensures Continues(leaves, active, i, n) <==> Sibling(leaves[n], active, i)
  {
    hide SignatureOf, SameMessage;
    var leaf := leaves[n];
    if i < |leaf.messages| {
      forall k | 0 <= k < i
        ensures SignatureOf(leaf.messages[k]) == SignatureOf(active[k]) <==> SameMessage(leaf.messages[k], active[k]) {
        SignatureTells(leaf.messages[k], active[k]);
      }
      var mine, theirs := PrefixKey(leaf.messages, i), PrefixKey(active, i);
      assert forall k :: 0 <= k < i ==> mine[k] == SignatureOf(leaf.messages[k]) && theirs[k] == SignatureOf(active[k]);
      if Continues(leaves, active, i, n) {
        assert mine == theirs;
      }
    }
  }

  /** Two leaves continue the active history in front of message `i` with different prompts. */
  ghost predicate Edited(leaves: seq<Checkpoint>, active: seq<Message>, i: nat)
    requires i < |active|
  {
    exists m: nat, n: nat :: Continues(leaves, active, i, m) && Continues(leaves, active, i, n)
      && DifferentPrompts(leaves[m].messages[i], leaves[n].messages[i])
  }

  predicate DifferentPrompts(a: Message, b: Message) {
    a.id != b.id || a.text != b.text
  }

  lemma {:induction false} TwoMembers<T(!new)>(s: set<T>)
    ensures |s| >= 2 <==> exists a, b :: a in s && b in s && a != b
  {
    if a, b :| a in s && b in s && a != b {
      SubsetSize({a, b}, s);
    }
    if |s| >= 2 {
      var a :| a in s;
      assert |s - {a}| >= 1;
      var b :| b in s - {a};
    }
  }

  lemma AlternativesAreEdits(leaves: seq<Checkpoint>, active: seq<Message>, i: nat)
    requires i < |active|
    ensures |Alternatives(leaves, active, i)| >= 2 <==> Edited(leaves, active, i)
  {
    hide SignatureOf, Sibling, Continues;
    TwoMembers(Alternatives(leaves, active, i));
    forall m: nat | m < |leaves|
      ensures Continues(leaves, active, i, m) <==> Sibling(leaves[m], active, i) {
      ContinuesIsSibling(leaves, active, i, m);
    }
    forall m: nat, n: nat | Continues(leaves, active, i, m) && Continues(leaves, active, i, n)
      ensures m < |leaves| && n < |leaves| && i < |leaves[m].messages| && i < |leaves[n].messages|
      ensures DifferentPrompts(leaves[m].messages[i], leaves[n].messages[i]) <==>
              SignatureOf(leaves[m].messages[i]) != SignatureOf(leaves[n].messages[i])
    {
      PromptsTold(leaves, active, i, m, n);
    }
    if Edited(leaves, active, i) {
      var m: nat, n: nat :| Continues(leaves, active, i, m) && Continues(leaves, active, i, n)
        && DifferentPrompts(leaves[m].messages[i], leaves[n].messages[i]);
      assert SignatureOf(leaves[m].messages[i]) in Alternatives(leaves, active, i);
      assert SignatureOf(leaves[n].messages[i]) in Alternatives(leaves, active, i);
    }
    if a, b :| a in Alternatives(leaves, active, i) && b in Alternatives(leaves, active, i) && a != b {
      var m: nat :| m < |leaves| && Sibling(leaves[m], active, i) && SignatureOf(leaves[m].messages[i]) == a;
      var n: nat :| n < |leaves| && Sibling(leaves[n], active, i) && SignatureOf(leaves[n].messages[i]) == b;
      assert Continues(leaves, active, i, m) && Continues(leaves, active, i, n);
    }
  }

  lemma PromptsTold(leaves: seq<Checkpoint>, active: seq<Message>, i: nat, m: nat, n: nat)
    requires i < |active| && Continues(leaves, active, i, m) && Continues(leaves, active, i, n)
    ensures m < |leaves| && n < |leaves| && i < |leaves[m].messages| && i < |leaves[n].messages|
    ensures DifferentPrompts(leaves[m].messages[i], leaves[n].messages[i]) <==>
            SignatureOf(leaves[m].messages[i]) != SignatureOf(leaves[n].messages[i])
  {
    hide SameMessage;
    assert leaves[m].messages[i].Human? && leaves[n].messages[i].Human?;
  }

  /** An option shows the text of the prompt in the leaf that it leads to, the newest with that prompt. */
  ghost predicate Shows(o: Choice, leaves: seq<Checkpoint>, active: seq<Message>, i: nat, n: nat)
    requires i < |active|
  {
    && Continues(leaves, active, i, n) && o.checkpointId == leaves[n].id && o.text == leaves[n].messages[i].text
    && forall m: nat :: m > n && Continues(leaves, active, i, m) ==>
         DifferentPrompts(leaves[m].messages[i], leaves[n].messages[i])
  }

  lemma OptionShows(o: Choice, b: Branch, leaves: seq<Checkpoint>, active: seq<Message>, i: nat)
    requires i < |active| && Partition(b.options, leaves, active, i) && o in b.options
    ensures exists n: nat :: Shows(o, leaves, active, i, n)
  {
    hide SignatureOf, PrefixKey, SameMessage;
    var n: nat :| NewestOffer(leaves, active, i, o.signature, n) && o == ChoiceOf(leaves[n], i);
    ContinuesIsSibling(leaves, active, i, n);
    forall m: nat | m > n && Continues(leaves, active, i, m)
      ensures m < |leaves| && i < |leaves[m].messages| && i < |leaves[n].messages|
      ensures DifferentPrompts(leaves[m].messages[i], leaves[n].messages[i]) {
      PromptsTold(leaves, active, i, m, n);
      ContinuesIsSibling(leaves, active, i, m);
    }
    PromptsTold(leaves, active, i, n, n);
    assert Shows(o, leaves, active, i, n);
  }

  /** In terms of messages alone: a prompt has a branch exactly when two leaves continue the history in front of it
      with prompts that differ in id or text, and every option shows such a prompt and leads to its newest leaf. */
  lemma BranchesAreEdits(branches: map<nat, Branch>, leaves: seq<Checkpoint>, active: seq<Message>, i: nat)
    requires BranchesUpTo(branches, leaves, active, |active|) && i < |active|
    ensures i in branches <==> active[i].Human? && Edited(leaves, active, i)
    ensures i in branches ==> branches[i].total == |branches[i].options| >= 2
    ensures i in branches ==> forall o :: o in branches[i].options ==> exists n: nat :: Shows(o, leaves, active, i, n)
  {
    hide Alternatives, Edited, Partition, Shows;
    AlternativesAreEdits(leaves, active, i);
    if i in branches {
      assert BranchFor(branches[i], leaves, active, i);
      forall o | o in branches[i].options ensures exists n: nat :: Shows(o, leaves, active, i, n) {
        OptionShows(o, branches[i], leaves, active, i);
      }
    }
  }
}
