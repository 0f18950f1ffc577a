/** Conversation thread ids: a root, and for sub-agents a `:sub:` suffix. */
module ThreadIds {
  import opened Prelude

  const SEP := ":sub:"

  /** The index of the first separator, or the length when there is none. */
  function Cut(s: string): (i: nat)
    ensures i <= |s|
  {
    if |s| < 5 then |s| else if s[..5] == SEP then 0 else 1 + Cut(s[1..])
  }

  function Root(s: string): string {
    s[..Cut(s)]
  }

  /** The separator and the suffix, empty for a root id. */
  function Rest(s: string): (rest: string)
    ensures Root(s) + rest == s
    ensures rest == [] || (|rest| >= 5 && rest[..5] == SEP)
  {
    CutMeets(s);
    s[Cut(s)..]
  }

  lemma {:induction false} CutMeets(s: string)
    ensures s[Cut(s)..] == [] || (|s[Cut(s)..]| >= 5 && s[Cut(s)..][..5] == SEP)
  {
    if |s| >= 5 && s[..5] != SEP {
      CutMeets(s[1..]);
      assert s[Cut(s)..] == s[1..][Cut(s[1..])..];
    }
    assert |s| < 5 ==> s[Cut(s)..] == [];
  }

  /** No separator starts earlier: the root is what Python's `partition` returns first. */
  lemma {:induction false} CutIsFirst(s: string, i: nat)
    ensures i < Cut(s) && i + 5 <= |s| ==> s[i..i + 5] != ":sub:"
  {
    if |s| >= 5 && s[..5] != SEP && i > 0 {
      CutIsFirst(s[1..], i - 1);
      assert i + 5 <= |s| ==> s[i..i + 5] == s[1..][i - 1..i + 4];
    }
  }

  /** Putting a root without a colon in front of a rest, and taking it apart again. */
  lemma {:induction false} CutOfJoin(root: string, rest: string)
    requires ':' !in root
    requires rest == [] || (|rest| >= 5 && rest[..5] == SEP)
    ensures Root(root + rest) == root && Rest(root + rest) == rest
  {
    var s := root + rest;
    if root == [] {
      assert s == rest;
    } else {
      CutOfJoin(root[1..], rest);
      assert s[1..] == root[1..] + rest;
      if |s| >= 5 {
        assert s[..5][0] == root[0] != ':' && SEP[0] == ':';
      } else {
        assert rest == [];
      }
      assert Cut(s) == |root| by {
        if |s| >= 5 {
          assert Root(s[1..]) == root[1..];
          assert |Root(s[1..])| == Cut(s[1..]);
        }
      }
      assert s[..|root|] == root && s[|root|..] == rest;
    }
  }

  // ---------------------------------------------------------------- aliases

  /** Legacy root to canonical root. */
  type Aliases = map<string, string>

  function ResolveRoot(aliases: Aliases, root: string): string {
    if root in aliases then aliases[root] else root
  }

  function ResolveThreadId(aliases: Aliases, id: string): string {
    ResolveRoot(aliases, Root(id)) + Rest(id)
  }

  /** The reversed alias table; when two legacy roots share a canonical one, some one of them is kept. */
  ghost function Reverse(aliases: Aliases): map<string, string> {
    map c | c in aliases.Values :: LegacyOf(aliases, c)
  }

  ghost function LegacyOf(aliases: Aliases, canonical: string): (legacy: string)
    requires canonical in aliases.Values
    ensures legacy in aliases && aliases[legacy] == canonical
  {
    var legacy :| legacy in aliases && aliases[legacy] == canonical; legacy
  }

  ghost function StorageThreadId(aliases: Aliases, id: string): string {
    ResolveRoot(Reverse(aliases), Root(id)) + Rest(id)
  }

  predicate IsHex(c: char) {
    'a' <= c <= 'f' || '0' <= c <= '9'
  }

  predicate CanonicalRoot(root: string) {
    |root| == 32 && forall c :: c in root ==> IsHex(c)
  }

  /** What the migration keeps true of the alias table: it is injective, its values are canonical roots
      and its keys are not. */
  ghost predicate AliasesOk(aliases: Aliases) {
    && (forall r :: r in aliases ==> CanonicalRoot(aliases[r]) && !CanonicalRoot(r))
    && (forall a, b :: a in aliases && b in aliases && aliases[a] == aliases[b] ==> a == b)
  }

  /** Canonical roots are written like the hexadecimal digits of a UUID. */
  lemma CanonicalMeans(root: string)
    ensures CanonicalRoot(root) <==> |root| == 32 && forall c :: c in root ==> c in "0123456789abcdef"
  {
    assert forall c :: IsHex(c) <==> c in "0123456789abcdef" by {
      forall c ensures IsHex(c) <==> c in "0123456789abcdef" { HexDigit(c); }
    }
  }

  lemma HexDigit(c: char)
    ensures IsHex(c) <==> c in "0123456789abcdef"
  {
    var digits := "0123456789abcdef";
    if IsHex(c) {
      var k := if c <= '9' then c as int - '0' as int else c as int - 'a' as int + 10;
      assert digits[k] == c;
    }
  }

  lemma CanonicalHasNoColon(root: string)
    requires CanonicalRoot(root)
    ensures ':' !in root && '_' !in root
  {
  }

  lemma ResolvedParts(aliases: Aliases, id: string)
    requires AliasesOk(aliases)
    ensures Root(ResolveThreadId(aliases, id)) == ResolveRoot(aliases, Root(id))
    ensures Rest(ResolveThreadId(aliases, id)) == Rest(id)
  {
    var root := Root(id);
    if root in aliases {
      CanonicalHasNoColon(aliases[root]);
      CutOfJoin(aliases[root], Rest(id));
    } else {
      assert ResolveThreadId(aliases, id) == id;
    }
  }

  /** Resolving twice is resolving once. */
  lemma ResolveIdempotent(aliases: Aliases, id: string)
    requires AliasesOk(aliases)
    ensures ResolveThreadId(aliases, ResolveThreadId(aliases, id)) == ResolveThreadId(aliases, id)
  {
    ResolvedParts(aliases, id);
    var once := ResolveThreadId(aliases, id);
    assert Root(once) !in aliases;
    assert ResolveThreadId(aliases, once) == Root(once) + Rest(once) == once;
  }

  /** On a migrated root, the storage lookup undoes resolution. */
  lemma StorageUndoesResolve(aliases: Aliases, id: string)
    requires AliasesOk(aliases) && Root(id) in aliases
    ensures StorageThreadId(aliases, ResolveThreadId(aliases, id)) == id
  {
    ResolvedParts(aliases, id);
    var canonical := aliases[Root(id)];
    assert canonical in aliases.Values;
    assert LegacyOf(aliases, canonical) == Root(id);
  }

  /** And resolution undoes the storage lookup of a migrated id exactly when the stored id is cut between the
      legacy root and the suffix. */
  lemma ResolveUndoesStorage(aliases: Aliases, id: string)
    requires AliasesOk(aliases) && Root(id) in aliases.Values
    ensures ResolveThreadId(aliases, StorageThreadId(aliases, id)) == id <==>
            Root(StorageThreadId(aliases, id)) == LegacyOf(aliases, Root(id))
  {
    var legacy, stored := LegacyOf(aliases, Root(id)), StorageThreadId(aliases, id);
    assert stored == legacy + Rest(id) && id == Root(id) + Rest(id);
    ResolvedParts(aliases, stored);
    if Root(stored) == legacy {
      assert Rest(stored) == Rest(id) by {
        assert Root(stored) + Rest(stored) == stored;
        assert Rest(stored) == stored[|legacy|..];
      }
    } else if Root(stored) !in aliases {
      assert ResolveThreadId(aliases, stored) == stored;
      assert legacy != Root(id);
      SameRest(legacy, Root(id), Rest(id));
    }
  }

  lemma SameRest(a: string, b: string, rest: string)
    ensures a + rest == b + rest ==> a == b
  {
    if a + rest == b + rest {
      assert a == (a + rest)[..|a|] && b == (b + rest)[..|b|];
    }
  }

  /** No colon in the legacy root is enough for that. */
  lemma PlainRootsComeBack(aliases: Aliases, id: string)
    requires AliasesOk(aliases) && Root(id) in aliases.Values && ':' !in LegacyOf(aliases, Root(id))
    ensures ResolveThreadId(aliases, StorageThreadId(aliases, id)) == id
  {
    CutOfJoin(LegacyOf(aliases, Root(id)), Rest(id));
    ResolveUndoesStorage(aliases, id);
  }

  /** Resolution keeps different conversations apart: two ids resolve alike only when they are the same
      id up to the alias of their root. */
  lemma ResolveInjective(aliases: Aliases, a: string, b: string)
    requires AliasesOk(aliases)
    ensures ResolveThreadId(aliases, a) == ResolveThreadId(aliases, b) <==>
            Rest(a) == Rest(b) && (Root(a) == Root(b) || ResolveRoot(aliases, Root(a)) == ResolveRoot(aliases, Root(b)))
    ensures Root(a) in aliases && Root(b) in aliases && ResolveThreadId(aliases, a) == ResolveThreadId(aliases, b) ==>
        a == b
  {
    ResolvedParts(aliases, a);
    ResolvedParts(aliases, b);
    assert a == Root(a) + Rest(a) && b == Root(b) + Rest(b);
  }
}
