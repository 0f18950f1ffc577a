/** The conversation id migration: updates of one id after another, in any order, are one simultaneous
    renaming of every reference. */
module Migration {
  import opened Prelude
  import opened ThreadIds

  // ---------------------------------------------------------------- tables

  /** The thread columns of a row, absent or null as None. */
  datatype Row = Row(thread: Option<string>, root: Option<string>, title: string)

  /** `threads` marks the conversation table, whose titles are migrated too. */
  datatype Table = Table(threads: bool, rows: seq<Row>)

  /** One update statement for each thread column, and one for titles that repeat the old id. */
  function RenameRow(threads: bool, row: Row, old_: string, new_: string): Row {
    var thread := if row.thread == Some(old_) then Some(new_) else row.thread;
    var root := if row.root == Some(old_) then Some(new_) else row.root;
    var title := if threads && thread == Some(new_) && row.title == old_ then new_ else row.title;
    Row(thread, root, title)
  }

  function RenameTable(table: Table, old_: string, new_: string): Table {
    Table(table.threads,
        seq(|table.rows|, i requires 0 <= i < |table.rows| => RenameRow(table.threads, table.rows[i], old_, new_)))
  }

  /** The ids with an underscore that the thread columns hold. */
  function References(tables: seq<Table>): set<string> {
    (set t, r | t in tables && r in t.rows && r.thread.Some? && '_' in r.thread.value :: r.thread.value)
    + (set t, r | t in tables && r in t.rows && r.root.Some? && '_' in r.root.value :: r.root.value)
  }

  // ---------------------------------------------------------------- the simultaneous renaming

  function RenameId(aliases: Aliases, done: set<string>, id: string): string {
    if id in done then ResolveThreadId(aliases, id) else id
  }

  function RenameOption(aliases: Aliases, done: set<string>, id: Option<string>): Option<string> {
    if id.Some? then Some(RenameId(aliases, done, id.value)) else None
  }

  /** Every id of `done` renamed at once. */
  function SubstituteRow(aliases: Aliases, done: set<string>, threads: bool, row: Row): Row {
    var thread := RenameOption(aliases, done, row.thread);
    Row(thread, RenameOption(aliases, done, row.root),
        if threads && row.title in done && thread == Some(ResolveThreadId(aliases, row.title))
            then ResolveThreadId(aliases, row.title) else row.title)
  }

  function SubstituteTable(aliases: Aliases, done: set<string>, table: Table): Table {
    Table(table.threads,
        seq(|table.rows|, i requires 0 <= i
            < |table.rows| => SubstituteRow(aliases, done, table.threads, table.rows[i])))
  }

  /** Legacy ids: their roots have an alias, so that none is the new name of another. */
  ghost predicate Legacy(aliases: Aliases, ids: set<string>) {
    AliasesOk(aliases) && forall id :: id in ids ==> Root(id) in aliases
  }

  lemma NewIsNotLegacy(aliases: Aliases, ids: set<string>, id: string)
    requires Legacy(aliases, ids)
    ensures Root(id) in aliases ==> ResolveThreadId(aliases, id) !in ids
  {
    ResolvedParts(aliases, id);
  }

  lemma RenameIdStep(aliases: Aliases, done: set<string>, old_: string, id: string)
    requires Legacy(aliases, done + {old_}) && old_ !in done
    ensures RenameId(aliases, done + {old_}, id) ==
            if RenameId(aliases, done, id) == old_ then ResolveThreadId(aliases, old_) else RenameId(aliases, done, id)
  {
    if id in done {
      NewIsNotLegacy(aliases, done + {old_}, id);
    }
  }

  /** Renaming one more id after the others is renaming them all at once. */
  lemma RenameRowStep(aliases: Aliases, done: set<string>, old_: string, threads: bool, row: Row)
    requires Legacy(aliases, done + {old_}) && old_ !in done
    ensures RenameRow(threads, SubstituteRow(aliases, done, threads, row), old_, ResolveThreadId(aliases, old_))
            == SubstituteRow(aliases, done + {old_}, threads, row)
  {
    hide ResolveThreadId, Legacy;
    if row.thread.Some? {
      RenameIdStep(aliases, done, old_, row.thread.value);
    }
    if row.root.Some? {
      RenameIdStep(aliases, done, old_, row.root.value);
    }
    TitleStep(aliases, done, old_, threads, row);
  }

  lemma TitleStep(aliases: Aliases, done: set<string>, old_: string, threads: bool, row: Row)
    requires Legacy(aliases, done + {old_}) && old_ !in done
    ensures RenameRow(threads, SubstituteRow(aliases, done, threads, row), old_, ResolveThreadId(aliases, old_)).title
            == SubstituteRow(aliases, done + {old_}, threads, row).title
  {
    hide ResolveThreadId;
    var new_ := ResolveThreadId(aliases, old_);
    assert Root(old_) in aliases;
    if row.thread.Some? {
      RenameIdStep(aliases, done, old_, row.thread.value);
    }
    if row.title in done {
      NewIsNotLegacy(aliases, done + {old_}, row.title);
      ResolveInjective(aliases, row.title, old_);
      if row.thread == Some(old_) {
        assert new_ != ResolveThreadId(aliases, row.title);
      }
    }
    if row.title == old_ && row.thread.Some? && row.thread.value in done {
      ResolveInjective(aliases, row.thread.value, old_);
    }
  }

  lemma RenameTableStep(aliases: Aliases, done: set<string>, old_: string, table: Table)
    requires Legacy(aliases, done + {old_}) && old_ !in done
    ensures RenameTable(SubstituteTable(aliases, done, table), old_, ResolveThreadId(aliases, old_))
            == SubstituteTable(aliases, done + {old_}, table)
  {
    hide RenameRow, SubstituteRow, Legacy, ResolveThreadId;
    forall i | 0 <= i < |table.rows|
      ensures RenameTable(SubstituteTable(aliases, done, table), old_, ResolveThreadId(aliases, old_)).rows[i]
              == SubstituteTable(aliases, done + {old_}, table).rows[i] {
      RenameRowStep(aliases, done, old_, table.threads, table.rows[i]);
    }
  }

  lemma SubstituteNothing(aliases: Aliases, table: Table)
    ensures SubstituteTable(aliases, {}, table) == table
  {
    var t := SubstituteTable(aliases, {}, table);
    assert forall i :: 0 <= i < |table.rows| ==> t.rows[i] == table.rows[i];
  }

  // ---------------------------------------------------------------- aliases

  /** The part of a root before its first underscore. */
  function Prefix(root: string): string
  {
    if root == [] || root[0] == '_' then [] else [root[0]] + Prefix(root[1..])
  }

  lemma {:induction false} PrefixStarts(root: string)
    ensures '_' in root ==> Prefix(root) + "_" <= root
  {
    if '_' in root && root[0] != '_' {
      assert root == [root[0]] + root[1..];
      PrefixStarts(root[1..]);
      assert Prefix(root) + "_" == [root[0]] + (Prefix(root[1..]) + "_");
    }
  }

  predicate Matched(prefixes: set<string>, root: string) {
    exists p :: p in prefixes && p + "_" <= root
  }

  const PLATFORMS := {"api", "cli", "telegram", "discord", "zalo", "task", "bg"}

  function LegacyRoots(references: set<string>): set<string> {
    set v | v in references && '_' in Root(v) && !CanonicalRoot(Root(v)) :: Root(v)
  }

  /** Every legacy root gets an alias; those that have one keep it. */
  function NewAliases(h: string -> string, aliases: Aliases, references: set<string>): Aliases {
    aliases + map r | r in LegacyRoots(references) - aliases.Keys :: h(r)
  }

  /** A root that the migration takes up. */
  predicate IsLegacy(root: string) {
    '_' in root && !CanonicalRoot(root)
  }

  /** The prefixes of all legacy roots, besides the known platforms. */
  method InferPrefixes(references: set<string>, platforms: set<string>) returns (prefixes: set<string>)
    ensures prefixes == PLATFORMS + platforms + set r | r in LegacyRoots(references) :: Prefix(r)
    ensures {"api", "cli", "telegram", "discord", "zalo", "task", "bg"} <= prefixes
  {
    hide CanonicalRoot, Root, Prefix;
    prefixes := PLATFORMS + platforms;
    var seen: set<string> := {};
    while seen != references
      invariant seen <= references
      invariant prefixes == PLATFORMS + platforms + set r | r in LegacyRoots(seen) :: Prefix(r)
      decreases |references - seen|
    {
      var v :| v in references - seen;
      RootsStep(seen, v);
      if IsLegacy(Root(v)) {
        prefixes := prefixes + {Prefix(Root(v))};
      }
      seen := seen + {v};
    }
  }

  lemma RootsStep(seen: set<string>, v: string)
    ensures LegacyRoots(seen + {v}) == LegacyRoots(seen) + if IsLegacy(Root(v)) then {Root(v)} else {}
  {
    hide CanonicalRoot, Root;
  }

  /** With the inferred prefixes, exactly the roots with an underscore match. */
  lemma MatchesLegacy(references: set<string>, platforms: set<string>, prefixes: set<string>, root: string)
    requires prefixes == PLATFORMS + platforms + set r | r in LegacyRoots(references) :: Prefix(r)
    requires IsLegacy(root) ==> root in LegacyRoots(references)
    ensures !CanonicalRoot(root) && Matched(prefixes, root) <==> IsLegacy(root)
  {
    hide CanonicalRoot, Root, Prefix, LegacyRoots;
    if Matched(prefixes, root) {
      MatchedHasUnderscore(prefixes, root);
    }
    if IsLegacy(root) {
      PrefixStarts(root);
      assert Prefix(root) in prefixes;
    }
  }

  lemma MatchedHasUnderscore(prefixes: set<string>, root: string)
    requires Matched(prefixes, root)
    ensures '_' in root
  {
    var p :| p in prefixes && p + "_" <= root;
    assert root[|p|] == '_';
  }

  method BuildAliases(h: string -> string, references: set<string>, platforms: set<string>, aliases: Aliases)
    returns (result: Aliases, prefixes: set<string>)
    ensures result == NewAliases(h, aliases, references)
    ensures prefixes == PLATFORMS + platforms + set r | r in LegacyRoots(references) :: Prefix(r)
  {
    hide CanonicalRoot, Root, Matched, LegacyRoots, IsLegacy;
    prefixes := InferPrefixes(references, platforms);
    result := aliases;
    var seen: set<string> := {};
    NoReferences(h, aliases);
    while seen != references
      invariant seen <= references
      invariant result == NewAliases(h, aliases, seen)
      decreases |references - seen|
    {
      var v :| v in references - seen;
      var root := Root(v);
      AliasStep(h, aliases, seen, v);
      RootIsLegacy(references, v);
      MatchesLegacy(references, platforms, prefixes, root);
      if root !in result && !CanonicalRoot(root) && Matched(prefixes, root) {
        result := result[root := h(root)];
      }
      seen := seen + {v};
    }
  }

  lemma RootIsLegacy(references: set<string>, v: string)
    requires v in references
    ensures IsLegacy(Root(v)) ==> Root(v) in LegacyRoots(references)
  {
  }

  lemma NoReferences(h: string -> string, aliases: Aliases)
    ensures NewAliases(h, aliases, {}) == aliases
  {
  }

  lemma AliasStep(h: string -> string, aliases: Aliases, seen: set<string>, v: string)
    ensures NewAliases(h, aliases, seen + {v}) ==
            if IsLegacy(Root(v)) && Root(v) !in NewAliases(h, aliases, seen)
                then NewAliases(h, aliases, seen)[Root(v) := h(Root(v))]
            else NewAliases(h, aliases, seen)
  {
    hide CanonicalRoot, Root, IsLegacy, LegacyRoots;
    RootsStep(seen, v);
  }

  // ---------------------------------------------------------------- JSON payloads

  datatype Json = Object(fields: seq<(string, Json)>) | List(items: seq<Json>) | Text(value: string) | Other(code: int)

  predicate IdentityKey(key: string) {
    key == "thread_id" || key == "root_thread_id"
  }

  /** Every identity field, at any depth, is resolved like a column. */
  function RewriteIdentity(aliases: Aliases, value: Json): Json {
    match value
    case Object(fields) =>
      Object(seq(|fields|, i requires 0 <= i < |fields| =>
        (fields[i].0,
         if IdentityKey(fields[i].0) && fields[i].1.Text? then Text(ResolveThreadId(aliases, fields[i].1.value))
         else RewriteIdentity(aliases, fields[i].1))))
    case List(items) => List(seq(|items|, i requires 0 <= i < |items| => RewriteIdentity(aliases, items[i])))
    case _ => value
  }

  /** No identity field, at any depth, refers to an aliased root. */
  predicate CleanIdentity(aliases: Aliases, value: Json) {
    match value
    case Object(fields) =>
      forall i :: 0 <= i < |fields| ==>
        (IdentityKey(fields[i].0) && fields[i].1.Text? ==> Root(fields[i].1.value) !in aliases)
            && CleanIdentity(aliases, fields[i].1)
    case List(items) => forall i :: 0 <= i < |items| ==> CleanIdentity(aliases, items[i])
    case _ => true
  }

  lemma {:induction false} RewriteCleans(aliases: Aliases, value: Json)
    requires AliasesOk(aliases)
    ensures CleanIdentity(aliases, RewriteIdentity(aliases, value))
  {
    hide ResolveThreadId, Root;
    match value
    case Object(fields) =>
      forall i | 0 <= i < |fields| ensures CleanField(aliases, RewriteIdentity(aliases, value).fields[i]) {
        if IdentityKey(fields[i].0) && fields[i].1.Text? {
          ResolvedParts(aliases, fields[i].1.value);
        } else {
          RewriteCleans(aliases, fields[i].1);
          RewriteKeepsKind(aliases, fields[i].1);
        }
      }
    case List(items) =>
      forall i | 0 <= i < |items| ensures CleanIdentity(aliases, RewriteIdentity(aliases, value).items[i]) {
        RewriteCleans(aliases, items[i]);
      }
    case _ =>
  }

  predicate CleanField(aliases: Aliases, field: (string, Json)) {
    (IdentityKey(field.0) && field.1.Text? ==> Root(field.1.value) !in aliases) && CleanIdentity(aliases, field.1)
  }

  lemma RewriteKeepsKind(aliases: Aliases, value: Json)
    ensures RewriteIdentity(aliases, value).Text? == value.Text?
  {
  }

  /** Rewriting changes exactly the payloads that hold a legacy identity. */
  lemma {:induction false} RewriteChangesLegacyOnly(aliases: Aliases, value: Json)
    requires AliasesOk(aliases)
    ensures RewriteIdentity(aliases, value) == value <==> CleanIdentity(aliases, value)
  {
    hide ResolveThreadId, Root;
    if RewriteIdentity(aliases, value) == value {
      RewriteCleans(aliases, value);
    } else if CleanIdentity(aliases, value) {
      CleanStays(aliases, value);
    }
  }

  lemma {:induction false} CleanStays(aliases: Aliases, value: Json)
    requires CleanIdentity(aliases, value)
    ensures RewriteIdentity(aliases, value) == value
  {
    hide ResolveThreadId, Root;
    match value
    case Object(fields) =>
      forall i | 0 <= i < |fields| ensures RewriteIdentity(aliases, value).fields[i] == fields[i] {
        if IdentityKey(fields[i].0) && fields[i].1.Text? {
          UnaliasedStays(aliases, fields[i].1.value);
        } else {
          CleanStays(aliases, fields[i].1);
        }
      }
    case List(items) =>
      forall i | 0 <= i < |items| ensures RewriteIdentity(aliases, value).items[i] == items[i] {
        CleanStays(aliases, items[i]);
      }
    case _ =>
  }

  // ---------------------------------------------------------------- what rewriting does along every path

  function Child(value: Json, i: nat): Option<Json> {
    match value
    case Object(fields) => if i < |fields| then Some(fields[i].1) else None
    case List(items) => if i < |items| then Some(items[i]) else None
    case _ => None
  }

  /** The value that a path of positions leads to. */
  function At(value: Json, path: seq<nat>): Option<Json> {
    if path == [] then Some(value)
    else match Child(value, path[0])
      case None => None
      case Some(child) => At(child, path[1..])
  }

  /** The path ends in a field whose key names a thread. */
  predicate NamesThread(value: Json, path: seq<nat>) {
    if path == [] then false
    else match Child(value, path[0])
      case None => false
      case Some(child) =>
        if |path| == 1 then value.Object? && value.fields[path[0]].0 in {"thread_id", "root_thread_id"}
        else NamesThread(child, path[1..])
  }

  /** Objects keep their keys, lists their length, a thread's name gets the root's alias and keeps its suffix, and
      every other leaf is unchanged. */
  predicate Renamed(aliases: Aliases, namesThread: bool, old_: Json, new_: Json) {
    match old_
    case Object(fields) =>
      new_.Object? && |new_.fields| == |fields| && forall i :: 0 <= i < |fields| ==> new_.fields[i].0 == fields[i].0
    case List(items) => new_.List? && |new_.items| == |items|
    case Text(t) =>
      if namesThread && Root(t) in aliases
      then new_.Text? && Root(new_.value) == aliases[Root(t)] && Rest(new_.value) == Rest(t)
      else new_ == old_
    case Other(_) => new_ == old_
  }

  lemma TextRenamed(aliases: Aliases, t: string)
    requires AliasesOk(aliases)
    ensures Renamed(aliases, true, Text(t), Text(ResolveThreadId(aliases, t)))
  {
    ResolvedParts(aliases, t);
    if Root(t) !in aliases {
      UnaliasedStays(aliases, t);
    }
  }

  lemma RewriteHere(aliases: Aliases, value: Json)
    ensures Renamed(aliases, false, value, RewriteIdentity(aliases, value))
  {
  }

  lemma RewriteChild(aliases: Aliases, value: Json, i: nat)
    ensures Child(RewriteIdentity(aliases, value), i).Some? <==> Child(value, i).Some?
    ensures Child(value, i).Some? ==>
              Child(RewriteIdentity(aliases, value), i).value
              == if NamesThread(value, [i]) && Child(value, i).value.Text?
                 then Text(ResolveThreadId(aliases, Child(value, i).value.value))
                 else RewriteIdentity(aliases, Child(value, i).value)
  {
    hide ResolveThreadId;
  }

  lemma NamesThreadLater(value: Json, i: nat, path: seq<nat>)
    requires path != []
    ensures NamesThread(value, [i] + path) <==> Child(value, i).Some? && NamesThread(Child(value, i).value, path)
  {
    assert ([i] + path)[1..] == path;
  }

  /** Along every path: rewriting changes neither the shape nor any leaf but the names of threads with an alias. */
  lemma {:induction false} RewriteRenames(aliases: Aliases, value: Json, path: seq<nat>)
    requires AliasesOk(aliases)
    ensures At(RewriteIdentity(aliases, value), path).Some? <==> At(value, path).Some?
    ensures At(value, path).Some? ==>
              Renamed(aliases, NamesThread(value, path), At(value, path).value,
                      At(RewriteIdentity(aliases, value), path).value)
    decreases |path|
  {
    hide RewriteIdentity, Renamed, NamesThread, Child, ResolveThreadId;
    if path == [] {
      RewriteHere(aliases, value);
      assert !NamesThread(value, []) by { NothingNamed(value); }
    } else {
      var i, rest := path[0], path[1..];
      assert path == [i] + rest && (rest == [] ==> path == [i]);
      RewriteChild(aliases, value, i);
      if Child(value, i).Some? {
        var child := Child(value, i).value;
        if NamesThread(value, [i]) && child.Text? {
          TextRenamed(aliases, child.value);
          LeafHasNoChildren(child, rest);
          LeafHasNoChildren(Text(ResolveThreadId(aliases, child.value)), rest);
        } else {
          RewriteRenames(aliases, child, rest);
          if rest == [] {
            NothingNamed(child);
            NotAText(aliases, child, RewriteIdentity(aliases, child), NamesThread(value, [i]));
          } else {
            NamesThreadLater(value, i, rest);
          }
        }
      }
    }
  }

  lemma NothingNamed(value: Json)
    ensures !NamesThread(value, [])
  {
  }

  lemma LeafHasNoChildren(leaf: Json, path: seq<nat>)
    requires leaf.Text?
    ensures At(leaf, path) == if path == [] then Some(leaf) else None
  {
  }

  lemma NotAText(aliases: Aliases, old_: Json, new_: Json, names: bool)
    requires Renamed(aliases, false, old_, new_) && (names ==> !old_.Text?)
    ensures Renamed(aliases, names, old_, new_)
  {
  }

  // ---------------------------------------------------------------- which payloads are rewritten

  predicate OccursAt(needle: string, text: string, i: nat) {
    i + |needle| <= |text| && text[i..i + |needle|] == needle
  }

  predicate Occurs(needle: string, text: string) {
    exists i :: 0 <= i <= |text| && OccursAt(needle, text, i)
  }

  /** Some prefix, with its underscore, occurs in the text. */
  predicate Mentions(prefixes: set<string>, text: string) {
    exists p :: p in prefixes && Occurs(p + "_", text)
  }

  /** The prefix and its underscore stand somewhere in the text. */
  lemma MentionsMeans(prefixes: set<string>, text: string)
    ensures Mentions(prefixes, text) <==> exists p, before, after :: p in prefixes && Around(text, before, p, after)
  {
    if p :| p in prefixes && Occurs(p + "_", text) {
      var i :| 0 <= i <= |text| && OccursAt(p + "_", text, i);
      assert Around(text, text[..i], p, text[i + |p + "_"|..]);
    }
    if p, before, after :| p in prefixes && Around(text, before, p, after) {
      assert text[|before|..|before| + |p + "_"|] == p + "_";
      assert OccursAt(p + "_", text, |before|);
    }
  }

  predicate Around(text: string, before: string, p: string, after: string) {
    text == before + (p + "_") + after
  }

  /** The payload column of one row: an empty text, one that mentions no prefix and one that is no JSON stay; so
      does one that rewriting leaves as it is. */
  function RewritePayload(aliases: Aliases, prefixes: set<string>, loads: string -> Option<Json>, dumps: Json -> string,
          raw: string): string {
    if raw == "" || !Mentions(prefixes, raw) then raw
    else match loads(raw)
      case None => raw
      case Some(value) => if RewriteIdentity(aliases, value) != value then dumps(RewriteIdentity(aliases, value))
          else raw
  }

  /** The payload holds no legacy identity, if it holds JSON at all. */
  predicate CleanPayload(aliases: Aliases, loads: string -> Option<Json>, raw: string) {
    loads(raw).Some? ==> CleanIdentity(aliases, loads(raw).value)
  }

  /** A payload ends up clean exactly when it was clean or mentions a prefix: the filter decides. */
  lemma PayloadCleanIff(aliases: Aliases, prefixes: set<string>, loads: string -> Option<Json>, dumps: Json -> string,
          raw: string)
    requires AliasesOk(aliases) && (forall j :: loads(dumps(j)) == Some(j))
    ensures CleanPayload(aliases, loads, RewritePayload(aliases, prefixes, loads, dumps, raw)) <==>
            CleanPayload(aliases, loads, raw) || Mentions(prefixes, raw)
  {
    hide RewriteIdentity, CleanIdentity, AliasesOk;
    if Mentions(prefixes, raw) {
      MentionsNonempty(prefixes, raw);
    }
    if loads(raw).Some? {
      RewriteCleans(aliases, loads(raw).value);
      RewriteChangesLegacyOnly(aliases, loads(raw).value);
    }
  }

  /** What a payload that mentions a prefix reads as afterwards; all others stay as they are, and so do those that
      rewriting would not change. */
  lemma PayloadRewritten(aliases: Aliases, prefixes: set<string>, loads: string -> Option<Json>,
          dumps: Json -> string, raw: string)
    requires AliasesOk(aliases) && (forall j :: loads(dumps(j)) == Some(j))
    ensures var out := RewritePayload(aliases, prefixes, loads, dumps, raw);
            && (!Mentions(prefixes, raw) || loads(raw).None? || CleanIdentity(aliases, loads(raw).value) ==> out == raw)
            && (Mentions(prefixes, raw) && loads(raw).Some? ==>
                  loads(out) == Some(RewriteIdentity(aliases, loads(raw).value)))
  {
    hide RewriteIdentity, CleanIdentity, AliasesOk;
    if Mentions(prefixes, raw) {
      MentionsNonempty(prefixes, raw);
    }
    if loads(raw).Some? {
      RewriteChangesLegacyOnly(aliases, loads(raw).value);
    }
  }

  lemma MentionsNonempty(prefixes: set<string>, text: string)
    requires Mentions(prefixes, text)
    ensures text != ""
  {
    var p :| p in prefixes && Occurs(p + "_", text);
    assert |p + "_"| > 0;
  }

  lemma OccursInside(inner: string, needle: string, text: string)
    requires inner <= needle && Occurs(needle, text)
    ensures Occurs(inner, text)
  {
    var i :| 0 <= i <= |text| && OccursAt(needle, text, i);
    assert text[i..i + |inner|] == needle[..|inner|] == inner;
    assert OccursAt(inner, text, i);
  }

  /** So every payload that spells out a root taken up by this run ends up clean. */
  lemma MigratedRootIsMentioned(references: set<string>, platforms: set<string>, prefixes: set<string>, root: string,
          text: string)
    requires prefixes == PLATFORMS + platforms + set r | r in LegacyRoots(references) :: Prefix(r)
    requires root in LegacyRoots(references) && Occurs(root, text)
    ensures Mentions(prefixes, text)
  {
    hide CanonicalRoot, Root, Prefix;
    PrefixStarts(root);
    assert Prefix(root) in prefixes;
    OccursInside(Prefix(root) + "_", root, text);
  }

  /** But a payload that names only a root aliased by an earlier run, whose prefix this run does not know, keeps
      its legacy identity. */
  lemma EarlierRootIsSkipped(loads: string -> Option<Json>, dumps: Json -> string)
    requires loads("{'thread_id': 'x_1'}") == Some(Object([("thread_id", Text("x_1"))]))
    ensures var aliases: Aliases := map["x_1" := "00000000000000000000000000000000"];
            var raw := "{'thread_id': 'x_1'}";
            && AliasesOk(aliases) && RewritePayload(aliases, PLATFORMS, loads, dumps, raw) == raw
                && !CleanPayload(aliases, loads, raw)
  {
    var raw := "{'thread_id': 'x_1'}";
    var aliases: Aliases := map["x_1" := "00000000000000000000000000000000"];
    forall p | p in PLATFORMS ensures !Occurs(p + "_", raw) {
      OneUnderscore(p, raw);
    }
    assert Root("x_1") == "x_1" by { RootOfShort("x_1"); }
    assert AliasesOk(aliases);
    assert Object([("thread_id", Text("x_1"))]).fields[0] == ("thread_id", Text("x_1"));
  }

  lemma RootOfShort(s: string)
    requires |s| < 5
    ensures Root(s) == s
  {
  }

  lemma OneUnderscore(p: string, raw: string)
    requires p in PLATFORMS && raw == "{'thread_id': 'x_1'}"
    ensures !Occurs(p + "_", raw)
  {
    var needle := p + "_";
    assert |p| >= 2 && needle[|p|] == '_' && needle[|p| - 1] == p[|p| - 1] && needle[|p| - 2] == p[|p| - 2];
    forall i: nat ensures !OccursAt(needle, raw, i) {
      OccursEnds(needle, raw, i);
    }
  }

  lemma OccursEnds(needle: string, text: string, i: nat)
    requires |needle| >= 3
    ensures OccursAt(needle, text, i) ==>
              forall k :: |needle| - 3 <= k < |needle| ==> text[i + k] == needle[k]
  {
    if OccursAt(needle, text, i) {
      forall k | |needle| - 3 <= k < |needle| ensures text[i + k] == needle[k] {
        assert text[i..i + |needle|][k] == text[i + k];
      }
    }
  }

  // ---------------------------------------------------------------- the migration

  /** The hash gives different canonical roots to different legacy ones, and the alias table holds hashes of
      legacy roots. */
  ghost predicate Sound(h: string -> string, aliases: Aliases, references: set<string>) {
    && (forall r :: r in aliases ==> aliases[r] == h(r) && IsLegacy(r))
    && (forall r :: r in aliases.Keys + LegacyRoots(references) ==> CanonicalRoot(h(r)))
    && (forall a, b :: a in aliases.Keys + LegacyRoots(references) && b in aliases.Keys + LegacyRoots(references) ==>
        h(a) == h(b) ==> a == b)
  }

  lemma NewAliasesOk(h: string -> string, aliases: Aliases, references: set<string>)
    requires Sound(h, aliases, references)
    ensures AliasesOk(NewAliases(h, aliases, references))
    ensures forall r :: r in NewAliases(h, aliases, references) ==> IsLegacy(r)
    ensures forall v :: v in references && IsLegacy(Root(v)) ==> Root(v) in NewAliases(h, aliases, references)
  {
    hide CanonicalRoot, Root;
  }

  function OldIds(aliases: Aliases, references: set<string>): set<string> {
    set v | v in references && Root(v) in aliases
  }

  function SubstituteAll(aliases: Aliases, ids: set<string>, tables: seq<Table>): seq<Table> {
    seq(|tables|, i requires 0 <= i < |tables| => SubstituteTable(aliases, ids, tables[i]))
  }

  /** All references of the tables renamed at once. */
  function Migrated(aliases: Aliases, tables: seq<Table>): seq<Table> {
    SubstituteAll(aliases, OldIds(aliases, References(tables)), tables)
  }

  lemma SubstituteNone(aliases: Aliases, tables: seq<Table>)
    ensures SubstituteAll(aliases, {}, tables) == tables
  {
    forall i | 0 <= i < |tables| ensures SubstituteAll(aliases, {}, tables)[i] == tables[i] {
      SubstituteNothing(aliases, tables[i]);
    }
  }

  /** Another run is possible, and changes nothing: it finds no old id and makes no alias. */
  ghost predicate Idle(h: string -> string, aliases: Aliases, tables: seq<Table>) {
    && Sound(h, aliases, References(tables))
    && NewAliases(h, aliases, References(tables)) == aliases
    && OldIds(aliases, References(tables)) == {} && Migrated(aliases, tables) == tables
  }

  class ConversationDatabase {
    var tables: seq<Table>
    var aliases: Aliases
    var payloads: seq<string>

    constructor (tables: seq<Table>, aliases: Aliases, payloads: seq<string>)
      ensures this.tables == tables && this.aliases == aliases && this.payloads == payloads
    {
      this.tables, this.aliases, this.payloads := tables, aliases, payloads;
    }

    /** All updates for one old id, table after table. */
    method RenameEverywhere(old_: string, new_: string)
      modifies this`tables
      ensures |tables| == |old(tables)|
      ensures forall i :: 0 <= i < |tables| ==> tables[i] == RenameTable(old(tables)[i], old_, new_)
    {
      hide RenameTable;
      for i := 0 to |tables|
        invariant |tables| == |old(tables)|
        invariant forall j :: 0 <= j < |tables| ==> tables[j] == if j < i then RenameTable(old(tables)[j], old_, new_)
            else old(tables)[j]
      {
        tables := tables[i := RenameTable(tables[i], old_, new_)];
      }
    }

    /** Old ids are taken in any order. */
    method RenameAll(ids: set<string>)
      requires Legacy(aliases, ids)
      modifies this`tables
      ensures tables == SubstituteAll(aliases, ids, old(tables))
    {
      hide RenameTable, SubstituteTable, ResolveThreadId, Root, AliasesOk;
      ghost var before := tables;
      SubstituteNone(aliases, tables);
      var done: set<string> := {};
      while done != ids
        invariant done <= ids
        invariant tables == SubstituteAll(aliases, done, before)
        decreases |ids - done|
      {
        var id :| id in ids - done;
        ghost var current := tables;
        RenameEverywhere(id, ResolveThreadId(aliases, id));
        forall i | 0 <= i < |tables| ensures tables[i] == SubstituteTable(aliases, done + {id}, before[i]) {
          RenameTableStep(aliases, done, id, before[i]);
        }
        done := done + {id};
      }
    }

    /** The payload columns, row after row. */
    method RewritePayloads(prefixes: set<string>, loads: string -> Option<Json>, dumps: Json -> string)
      modifies this`payloads
      ensures |payloads| == |old(payloads)|
      ensures forall i :: 0 <= i < |payloads| ==>
          payloads[i] == RewritePayload(aliases, prefixes, loads, dumps, old(payloads)[i])
    {
      hide RewritePayload;
      for i := 0 to |payloads|
        invariant |payloads| == |old(payloads)|
        invariant forall j :: 0 <= j < |payloads| ==>
                    payloads[j] == if j < i then RewritePayload(aliases, prefixes, loads, dumps, old(payloads)[j])
                        else old(payloads)[j]
      {
        payloads := payloads[i := RewritePayload(aliases, prefixes, loads, dumps, payloads[i])];
      }
    }

    /** The whole migration; afterwards another run could be made, and would change nothing. */
    method MigrateConversationIds(h: string -> string, platforms: set<string>, loads: string -> Option<Json>,
            dumps: Json -> string)
      requires Sound(h, aliases, References(tables))
      modifies this
      ensures aliases == NewAliases(h, old(aliases), References(old(tables)))
      ensures tables == Migrated(aliases, old(tables))
      ensures var references := References(old(tables));
              var prefixes := PLATFORMS + platforms + set r | r in LegacyRoots(references) :: Prefix(r);
              if OldIds(aliases, references) == {} then payloads == old(payloads)
              else |payloads| == |old(payloads)| && forall i :: 0 <= i < |payloads| ==>
                     payloads[i] == RewritePayload(aliases, prefixes, loads, dumps, old(payloads)[i])
      ensures Idle(h, aliases, tables)
    {
      hide Sound, SubstituteAll, References, LegacyRoots, Idle, Root;
      var references := References(tables);
      NewAliasesOk(h, aliases, references);
      SecondRunIdle(h, aliases, tables);
      ghost var before := tables;
      var prefixes;
      aliases, prefixes := BuildAliases(h, references, platforms, aliases);
      var ids := set v | v in references && Root(v) in aliases;
      SubstituteNone(aliases, tables);
      if ids == {} {
        return;
      }
      RenameAll(ids);
      RewritePayloads(prefixes, loads, dumps);
    }
  }

  // ---------------------------------------------------------------- what the migration achieves

  lemma ThreadReferenced(tables: seq<Table>, i: nat, j: nat)
    requires i < |tables| && j < |tables[i].rows|
    ensures tables[i].rows[j].thread.Some? && '_' in tables[i].rows[j].thread.value ==>
        tables[i].rows[j].thread.value in References(tables)
    ensures tables[i].rows[j].root.Some? && '_' in tables[i].rows[j].root.value ==>
        tables[i].rows[j].root.value in References(tables)
  {
    assert tables[i] in tables && tables[i].rows[j] in tables[i].rows;
  }

  lemma UnderscoreInId(aliases: Aliases, id: string)
    requires forall r :: r in aliases ==> IsLegacy(r)
    requires Root(id) in aliases
    ensures '_' in id
  {
    assert id == Root(id) + Rest(id);
    assert '_' in Root(id);
  }

  /** Being renamed with the others is being resolved. */
  lemma RenamedIsResolved(aliases: Aliases, references: set<string>, id: string)
    requires (forall r :: r in aliases ==> IsLegacy(r)) && ('_' in id ==> id in references)
    ensures RenameId(aliases, OldIds(aliases, references), id) == ResolveThreadId(aliases, id)
  {
    if Root(id) in aliases {
      UnderscoreInId(aliases, id);
    } else {
      assert Root(id) + Rest(id) == id;
    }
  }

  /** Every thread column of every table holds the resolution of what it held, with the same suffix. */
  lemma EveryReferenceResolved(aliases: Aliases, tables: seq<Table>, i: nat, j: nat)
    requires AliasesOk(aliases) && (forall r :: r in aliases ==> IsLegacy(r))
    requires i < |tables| && j < |tables[i].rows|
    ensures var row, row' := tables[i].rows[j], Migrated(aliases, tables)[i].rows[j];
            && (row.thread.None? ==> row'.thread.None?)
            && (row.thread.Some? ==>
                row'.thread == Some(ResolveThreadId(aliases, row.thread.value))
                && Rest(row'.thread.value) == Rest(row.thread.value))
            && (row.root.None? ==> row'.root.None?)
            && (row.root.Some? ==>
                row'.root == Some(ResolveThreadId(aliases, row.root.value))
                && Rest(row'.root.value) == Rest(row.root.value))
  {
    hide References, ResolveThreadId, OldIds, AliasesOk, Rest, RenameId;
    ThreadReferenced(tables, i, j);
    var row := tables[i].rows[j];
    if row.thread.Some? {
      RenamedIsResolved(aliases, References(tables), row.thread.value);
      ResolvedParts(aliases, row.thread.value);
    }
    if row.root.Some? {
      RenamedIsResolved(aliases, References(tables), row.root.value);
      ResolvedParts(aliases, row.root.value);
    }
  }

  /** A conversation's title follows its id exactly when it repeats the id. */
  lemma TitleFollows(aliases: Aliases, tables: seq<Table>, i: nat, j: nat)
    requires AliasesOk(aliases) && (forall r :: r in aliases ==> IsLegacy(r))
    requires i < |tables| && j < |tables[i].rows|
    ensures var row, row' := tables[i].rows[j], Migrated(aliases, tables)[i].rows[j];
            && (tables[i].threads && row.thread == Some(row.title) ==> row'.thread == Some(row'.title))
            && (row'.title != row.title ==>
                tables[i].threads && row'.thread == Some(row'.title)
                && row'.title == ResolveThreadId(aliases, row.title))
  {
    hide References, ResolveThreadId, OldIds, AliasesOk, Rest;
    ThreadReferenced(tables, i, j);
    var row := tables[i].rows[j];
    if row.thread.Some? {
      RenamedIsResolved(aliases, References(tables), row.thread.value);
    }
  }

  /** An alias table that covers the tables: what a migration leaves. */
  ghost predicate Covers(aliases: Aliases, tables: seq<Table>) {
    && AliasesOk(aliases) && (forall r :: r in aliases ==> IsLegacy(r))
    && (forall v :: v in References(tables) && IsLegacy(Root(v)) ==> Root(v) in aliases)
  }

  lemma ResolvedIsClean(aliases: Aliases, references: set<string>, id: string)
    requires AliasesOk(aliases) && (forall v :: v in references && IsLegacy(Root(v)) ==> Root(v) in aliases)
    requires '_' in id ==> id in references
    ensures '_' !in Root(ResolveThreadId(aliases, id))
  {
    hide ResolveThreadId;
    ResolvedParts(aliases, id);
    if Root(id) in aliases {
      CanonicalHasNoColon(aliases[Root(id)]);
    } else if '_' in Root(id) {
      assert id == Root(id) + Rest(id);
      if CanonicalRoot(Root(id)) {
        CanonicalHasNoColon(Root(id));
      }
    }
  }

  /** No root with an underscore is left in the thread columns. */
  lemma NoLegacyRootLeft(aliases: Aliases, tables: seq<Table>, i: nat, j: nat)
    requires Covers(aliases, tables) && i < |tables| && j < |tables[i].rows|
    ensures var row' := Migrated(aliases, tables)[i].rows[j];
            (row'.thread.Some? ==> '_' !in Root(row'.thread.value))
                && (row'.root.Some? ==> '_' !in Root(row'.root.value))
  {
    hide References, ResolveThreadId, Root, Migrated;
    EveryReferenceResolved(aliases, tables, i, j);
    ThreadReferenced(tables, i, j);
    var row := tables[i].rows[j];
    if row.thread.Some? {
      ResolvedIsClean(aliases, References(tables), row.thread.value);
    }
    if row.root.Some? {
      ResolvedIsClean(aliases, References(tables), row.root.value);
    }
  }

  /** A migration leaves an alias table that covers the tables it found. */
  lemma MigrationCovers(h: string -> string, aliases: Aliases, tables: seq<Table>)
    requires Sound(h, aliases, References(tables))
    ensures Covers(NewAliases(h, aliases, References(tables)), tables)
  {
    hide References, Sound;
    NewAliasesOk(h, aliases, References(tables));
  }

  lemma CleanReferences(aliases: Aliases, tables: seq<Table>, v: string)
    requires Covers(aliases, tables) && v in References(Migrated(aliases, tables))
    ensures '_' !in Root(v)
  {
    hide Root, Covers, Migrated;
    var after := Migrated(aliases, tables);
    var i, j :| 0 <= i < |after| && 0 <= j < |after[i].rows|
        && (after[i].rows[j].thread == Some(v) || after[i].rows[j].root == Some(v));
    assert |after| == |tables| && |after[i].rows| == |tables[i].rows| by { MigratedShape(aliases, tables); }
    NoLegacyRootLeft(aliases, tables, i, j);
  }

  lemma MigratedShape(aliases: Aliases, tables: seq<Table>)
    ensures |Migrated(aliases, tables)| == |tables|
    ensures forall i :: 0 <= i < |tables| ==> |Migrated(aliases, tables)[i].rows| == |tables[i].rows|
  {
  }

  lemma CoveredIsIdle(h: string -> string, aliases: Aliases, tables: seq<Table>)
    requires Covers(aliases, tables)
    ensures NewAliases(h, aliases, References(Migrated(aliases, tables))) == aliases
    ensures LegacyRoots(References(Migrated(aliases, tables))) == {}
    ensures OldIds(aliases, References(Migrated(aliases, tables))) == {}
    ensures Migrated(aliases, Migrated(aliases, tables)) == Migrated(aliases, tables)
  {
    hide References, Root, SubstituteTable;
    var after := Migrated(aliases, tables);
    forall v | v in References(after) ensures '_' !in Root(v) {
      CleanReferences(aliases, tables, v);
    }
    assert LegacyRoots(References(after)) == {};
    assert OldIds(aliases, References(after)) == {};
    SubstituteNone(aliases, after);
  }

  /** What a migration leaves needs no other one. */
  lemma SecondRunIdle(h: string -> string, aliases: Aliases, tables: seq<Table>)
    requires Sound(h, aliases, References(tables))
    ensures var after := NewAliases(h, aliases, References(tables)); Idle(h, after, Migrated(after, tables))
  {
    hide References, Migrated, Covers, CanonicalRoot, Root;
    var after := NewAliases(h, aliases, References(tables));
    MigrationCovers(h, aliases, tables);
    CoveredIsIdle(h, after, tables);
    assert after.Keys <= aliases.Keys + LegacyRoots(References(tables));
    assert forall r :: r in LegacyRoots(References(tables)) ==> IsLegacy(r);
  }

  /** Equal references stay equal, and different ones stay different unless one of them was the other's
      canonical form already. */
  lemma ReferencesStayApart(aliases: Aliases, a: string, b: string)
    requires AliasesOk(aliases)
    ensures ResolveThreadId(aliases, a) == ResolveThreadId(aliases, b) <==>
            a == b || (Root(a) in aliases && b == ResolveThreadId(aliases, a))
                || (Root(b) in aliases && a == ResolveThreadId(aliases, b))
  {
    hide ResolveThreadId;
    ResolveIdempotent(aliases, a);
    ResolveIdempotent(aliases, b);
    ResolveInjective(aliases, a, b);
    UnaliasedStays(aliases, a);
    UnaliasedStays(aliases, b);
  }

  lemma UnaliasedStays(aliases: Aliases, id: string)
    ensures Root(id) !in aliases ==> ResolveThreadId(aliases, id) == id
  {
    assert Root(id) + Rest(id) == id;
  }
}
