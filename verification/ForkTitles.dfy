/** Numbering the titles of forked conversations. */
module ForkTitles {
  import opened Prelude
  import opened Forkable

  const MAX_TITLE := 255

  // ---------------------------------------------------------------- decimal numbers

  predicate IsDigit(c: char) {
    '0' <= c <= '9'
  }

  function Digit(d: nat): (c: char)
    requires d < 10
    ensures IsDigit(c) && c as int == '0' as int + d
  {
    ('0' as int + d) as char
  }

  function Decimal(n: nat): (s: string)
    ensures s != [] && (forall c :: c in s ==> IsDigit(c)) && (|s| > 1 ==> s[0] != '0')
    ensures n > 0 ==> s[0] != '0'
  {
    if n < 10 then [Digit(n)] else Decimal(n / 10) + [Digit(n % 10)]
  }

  function Value(s: string): nat
    requires forall c :: c in s ==> IsDigit(c)
  {
    if s == [] then 0 else assert IsDigit(s[|s| - 1]); 10 * Value(s[..|s| - 1]) + (s[|s| - 1] as int - '0' as int)
  }

  lemma {:induction false} ValueDecimal(n: nat)
    ensures Value(Decimal(n)) == n
  {
    if n >= 10 {
      ValueDecimal(n / 10);
      assert Decimal(n)[..|Decimal(n)| - 1] == Decimal(n / 10);
    }
  }

  // ---------------------------------------------------------------- suffixes

  function Suffix(n: nat): string {
    " (" + Decimal(n) + ")"
  }

  function TrailingDigits(s: string): (n: nat)
    ensures n <= |s|
    ensures forall c :: c in s[|s| - n..] ==> IsDigit(c)
    ensures n < |s| ==> !IsDigit(s[|s| - n - 1])
  {
    if s != [] && IsDigit(s[|s| - 1]) then
      var n := TrailingDigits(s[..|s| - 1]);
      assert s[|s| - 1 - n..] == s[..|s| - 1][|s| - 1 - n..] + [s[|s| - 1]];
      n + 1
    else 0
  }

  /** Two or more, written without leading zeros. */
  predicate NumbersAFork(digits: string) {
    && digits != [] && (forall c :: c in digits ==> IsDigit(c))
    && digits[0] != '0' && digits != "1"
  }

  lemma {:induction false} ValueIsPositive(digits: string)
    requires digits != [] && digits[0] != '0' && forall c :: c in digits ==> IsDigit(c)
    ensures Value(digits) >= 1 && (|digits| > 1 ==> Value(digits) >= 10)
  {
    var last := digits[|digits| - 1];
    assert last in digits && IsDigit(last);
    assert Value(digits) == 10 * Value(digits[..|digits| - 1]) + (last as int - '0' as int);
    if |digits| > 1 {
      ValueIsPositive(digits[..|digits| - 1]);
    } else {
      assert digits[..0] == [];
    }
  }

  /** Exactly the numbers from two on, without leading zeros. */
  lemma NumbersAForkMeans(digits: string)
    ensures NumbersAFork(digits) <==>
            && digits != [] && digits[0] != '0' && (forall c :: c in digits ==> '0' <= c <= '9') && Value(digits) >= 2
  {
    if digits != [] && digits[0] != '0' && forall c :: c in digits ==> IsDigit(c) {
      ValueIsPositive(digits);
      if |digits| == 1 {
        assert digits == [digits[0]] && digits[..0] == [];
        assert Value(digits) == digits[0] as int - '0' as int;
        assert digits == "1" <==> digits[0] == '1';
      }
    }
  }

  datatype Numbered = Numbered(base: string, digits: string)

  /** The full match of the title pattern: a base without line breaks, a space, a number in brackets. */
  function ParseTitle(t: string): (r: Option<Numbered>)
    ensures r.Some? ==>
        NumbersAFork(r.value.digits) && t == r.value.base + " (" + r.value.digits + ")" && '\n' !in r.value.base
  {
    if t == [] || t[|t| - 1] != ')' then None
    else
      var body := t[..|t| - 1];
      var n := TrailingDigits(body);
      var head, digits := body[..|body| - n], body[|body| - n..];
      if |head| < 2 || head[|head| - 2..] != " (" || !NumbersAFork(digits) || '\n' in head[..|head| - 2] then None
      else
        assert t == body + [')'] && body == head + digits && head == head[..|head| - 2] + " (";
        Some(Numbered(head[..|head| - 2], digits))
  }

  lemma {:induction false} TrailingDigitsOf(head: string, digits: string)
    requires head != [] && !IsDigit(head[|head| - 1]) && forall c :: c in digits ==> IsDigit(c)
    ensures TrailingDigits(head + digits) == |digits|
  {
    var s := head + digits;
    if digits != [] {
      assert s[..|s| - 1] == head + digits[..|digits| - 1];
      TrailingDigitsOf(head, digits[..|digits| - 1]);
    } else {
      assert s == head;
    }
  }

  /** The parser finds every way of writing a title as a base and a fork number. */
  lemma ParseComplete(base: string, digits: string)
    requires NumbersAFork(digits) && '\n' !in base
    ensures ParseTitle(base + " (" + digits + ")") == Some(Numbered(base, digits))
  {
    var head := base + " (";
    var t := head + digits + ")";
    assert t[..|t| - 1] == head + digits;
    TrailingDigitsOf(head, digits);
    assert (head + digits)[..|head|] == head && (head + digits)[|head|..] == digits;
    assert head[..|head| - 2] == base && head[|head| - 2..] == " (";
    assert t == base + " (" + digits + ")";
  }

  /** Titles with different numbers are different, whatever their bases. */
  lemma SuffixDetermines(a: string, m: nat, b: string, n: nat)
    requires a + Suffix(m) == b + Suffix(n)
    ensures m == n && a == b
  {
    var s, t := a + " (" + Decimal(m), b + " (" + Decimal(n);
    assert s + ")" == a + Suffix(m) && t + ")" == b + Suffix(n);
    assert s == (s + ")")[..|s|] && t == (t + ")")[..|t|];
    TrailingDigitsOf(a + " (", Decimal(m));
    TrailingDigitsOf(b + " (", Decimal(n));
    assert s[|s| - |Decimal(m)|..] == Decimal(m) && t[|t| - |Decimal(n)|..] == Decimal(n);
    ValueDecimal(m);
    ValueDecimal(n);
    assert a == (a + Suffix(m))[..|a|] && b == (b + Suffix(n))[..|b|];
  }

  // ---------------------------------------------------------------- candidate titles

  /** Python's `s[:n]`. */
  function Take(s: string, n: int): (r: string)
    ensures n >= 0 ==> |r| <= n
  {
    if n >= 0 then s[..Min(n, |s|)] else s[..Max(0, |s| + n)]
  }

  function RStrip(s: string): (r: string)
    ensures |r| <= |s| && r == s[..|r|] && IsBlank(s[|r|..])
    ensures r != [] ==> !IsSpace(r[|r| - 1])
  {
    if s == [] || !IsSpace(s[|s| - 1]) then s
    else
      var r := RStrip(s[..|s| - 1]);
      assert s[|r|..] == s[..|s| - 1][|r|..] + [s[|s| - 1]];
      r
  }

  function LStrip(s: string): string {
    if s == [] || !IsSpace(s[0]) then s else LStrip(s[1..])
  }

  function Candidate(base: string, n: nat): string {
    RStrip(Take(base, MAX_TITLE - |Suffix(n)|)) + Suffix(n)
  }

  /** A candidate is as much of the base as fits, without trailing white space, and the number in brackets. */
  lemma CandidateMeets(base: string, n: nat)
    ensures exists p, rest :: CandidateOf(base, n, p, rest)
  {
    hide Take, Decimal;
    var room := MAX_TITLE - |" (" + Decimal(n) + ")"|;
    var cut := Take(base, room);
    TakeMeets(base, room);
    var p := RStrip(cut);
    assert cut == p + cut[|p|..];
    assert Candidate(base, n) == p + " (" + Decimal(n) + ")" by {
      assert Suffix(n) == " (" + Decimal(n) + ")";
      assert p + (" (" + Decimal(n) + ")") == p + " (" + Decimal(n) + ")";
    }
    assert CandidateOf(base, n, p, cut[|p|..]);
  }

  lemma TakeMeets(s: string, n: int)
    ensures Take(s, n) <= s && |Take(s, n)| == if n >= 0 then Min(n, |s|) else Max(0, |s| + n)
  {
  }

  predicate CandidateOf(base: string, n: nat, p: string, rest: string) {
    var room := 255 - |" (" + Decimal(n) + ")"|;
    && Candidate(base, n) == p + " (" + Decimal(n) + ")"
    && IsBlank(rest) && (p != [] ==> !IsSpace(p[|p| - 1]))
    && p + rest <= base && (room >= 0 ==> |p + rest| == Min(room, |base|))
    && (room < 0 ==> |p + rest| == Max(0, |base| + room))
  }

  /** A candidate is at most 255 characters long exactly when its numeric suffix is. */
  lemma CandidateLength(base: string, n: nat)
    ensures |Candidate(base, n)| <= 255 <==> |Suffix(n)| <= 255
  {
  }

  /** The number of `existing` when its base is `base`, cut to the room that its own suffix leaves. */
  function FamilyNumber(existing: string, base: string): Option<nat> {
    match ParseTitle(existing)
    case None => None
    case Some(p) =>
      if p.base == Take(base, MAX_TITLE - |" (" + p.digits + ")"|) then Some(Value(p.digits)) else None
  }

  /** A title belongs to the family when it is its own number behind the base, cut to the room that leaves. */
  lemma FamilyNumberMeets(existing: string, base: string, n: nat)
    ensures FamilyNumber(existing, base) == Some(n) <==> exists digits :: InFamily(existing, base, n, digits)
  {
    hide Take, Value, ParseTitle, NumbersAFork;
    if digits :| InFamily(existing, base, n, digits) {
      ParseComplete(Take(base, 255 - |" (" + digits + ")"|), digits);
    }
    if FamilyNumber(existing, base) == Some(n) {
      assert InFamily(existing, base, n, ParseTitle(existing).value.digits);
    }
  }

  predicate InFamily(existing: string, base: string, n: nat, digits: string) {
    && NumbersAFork(digits) && n == Value(digits)
    && var cut := Take(base, 255 - |" (" + digits + ")"|);
    && '\n' !in cut && existing == cut + " (" + digits + ")"
  }

  /** `number` is `start` or the number of a related title, whichever is greatest. */
  ghost predicate Highest(number: nat, start: nat, base: string, titles: seq<string>) {
    && number >= start
    && (forall t :: t in titles ==> FamilyNumber(t, base) == None || FamilyNumber(t, base).value <= number)
    && (number == start || exists t :: t in titles && FamilyNumber(t, base) == Some(number))
  }

  method HighestNumber(base: string, start: nat, titles: seq<string>) returns (number: nat)
    ensures Highest(number, start, base, titles)
  {
    number := start;
    for i := 0 to |titles|
      invariant Highest(number, start, base, titles[..i])
    {
      var n := FamilyNumber(titles[i], base);
      HighestExtends(number, start, base, titles[..i], titles[i], n);
      PrefixStep(titles, i);
      number := Raise(number, n);
    }
    assert titles[..|titles|] == titles;
  }

  function Raise(number: nat, n: Option<nat>): nat {
    match n case None => number case Some(m) => Max(number, m)
  }

  lemma HighestExtends(number: nat, start: nat, base: string, titles: seq<string>, t: string, n: Option<nat>)
    requires Highest(number, start, base, titles) && n == FamilyNumber(t, base)
    ensures Highest(Raise(number, n), start, base, titles + [t])
  {
    var next := Raise(number, n);
    if next == number && number != start {
      var u :| u in titles && FamilyNumber(u, base) == Some(number);
      assert u in titles + [t];
    } else if next != number {
      assert t in titles + [t] && FamilyNumber(t, base) == Some(next);
    }
  }

  /** The base and number that the numbering starts from. */
  function Origin(title: string): (r: (string, nat)) {
    var stripped := LStrip(RStrip(title));
    var t := if stripped == [] then "New conversation" else stripped;
    match ParseTitle(t)
    case Some(p) => (p.base, Value(p.digits))
    case None => (t, 1)
  }

  /** `t` is `s` without white space at its ends. */
  ghost predicate Strips(s: string, t: string) {
    && (exists before, after :: s == before + t + after && IsBlank(before) && IsBlank(after))
    && (t != [] ==> !IsSpace(t[0]) && !IsSpace(t[|t| - 1]))
  }

  lemma {:induction false} LStripMeets(s: string) returns (before: string)
    ensures s == before + LStrip(s) && IsBlank(before)
    ensures LStrip(s) != [] ==> !IsSpace(LStrip(s)[0])
  {
    hide IsSpace;
    if s == [] || !IsSpace(s[0]) {
      before := [];
    } else {
      var rest := LStripMeets(s[1..]);
      before := [s[0]] + rest;
      assert s == [s[0]] + s[1..] == [s[0]] + (rest + LStrip(s));
      BlankCons(s[0], rest);
    }
  }

  lemma BlankCons(c: char, rest: string)
    requires IsSpace(c) && IsBlank(rest)
    ensures IsBlank([c] + rest)
  {
    hide IsSpace;
  }

  lemma Stripped(s: string)
    ensures Strips(s, LStrip(RStrip(s)))
  {
    var r := RStrip(s);
    var before := LStripMeets(r);
    var t := LStrip(r);
    assert s == before + t + s[|r|..] && IsBlank(s[|r|..]);
    if t != [] {
      assert t[|t| - 1] == r[|r| - 1];
    }
  }

  /** The numbering starts from the stripped title, or from the default one: from its base and number when it is
      that of a numbered fork, else from itself and one. */
  lemma OriginMeets(title: string)
    ensures exists stripped :: Strips(title, stripped)
              && OriginOf(if stripped == [] then "New conversation" else stripped, Origin(title))
  {
    var stripped := LStrip(RStrip(title));
    var t := if stripped == [] then "New conversation" else stripped;
    Stripped(title);
    if ParseTitle(t).None? {
      forall base, digits | NumbersAFork(digits) && '\n' !in base ensures t != base + " (" + digits + ")" {
        ParseComplete(base, digits);
      }
    } else {
      var p := ParseTitle(t).value;
      assert NumberedFork(t, p.base, p.digits) && Origin(title) == (p.base, Value(p.digits));
    }
    assert OriginOf(t, Origin(title));
  }

  predicate NumberedFork(t: string, base: string, digits: string) {
    NumbersAFork(digits) && '\n' !in base && t == base + " (" + digits + ")"
  }

  ghost predicate OriginOf(t: string, origin: (string, nat)) {
    if exists base, digits :: NumberedFork(t, base, digits)
    then exists digits :: NumberedFork(t, origin.0, digits) && origin.1 == Value(digits)
    else origin == (t, 1)
  }

  /** Exactly the titles `f` of the numbers `first + 1..number` were tried. */
  ghost predicate Tried(f: nat -> string, first: nat, number: nat, tried: set<string>) {
    && first <= number && |tried| == number - first
    && (forall n: nat :: first < n <= number ==> f(n) in tried)
    && (forall c :: c in tried ==> exists n: nat :: first < n <= number && f(n) == c)
  }

  lemma CandidatesDiffer(base: string, m: nat, n: nat)
    requires m != n
    ensures Candidate(base, m) != Candidate(base, n)
  {
    var a, b := RStrip(Take(base, MAX_TITLE - |Suffix(m)|)), RStrip(Take(base, MAX_TITLE - |Suffix(n)|));
    if a + Suffix(m) == b + Suffix(n) {
      SuffixDetermines(a, m, b, n);
    }
  }

  lemma TryNext(f: nat -> string, first: nat, number: nat, tried: set<string>)
    requires forall m: nat, n: nat :: m != n ==> f(m) != f(n)
    requires Tried(f, first, number, tried)
    ensures f(number + 1) !in tried
    ensures Tried(f, first, number + 1, tried + {f(number + 1)})
  {
  }

  /** The numbering loop: the first number after `first` whose title is free. */
  method FirstFree(f: nat -> string, first: nat, titles: seq<string>) returns (number: nat)
    requires forall m: nat, n: nat :: m != n ==> f(m) != f(n)
    ensures first < number <= first + |titles| + 1
    ensures f(number) !in titles && forall n: nat :: first < n < number ==> f(n) in titles
  {
    number := first;
    ghost var all, tried: set<string> := set t | t in titles, {};
    SetSize(titles);
    while true
      invariant tried <= all && Tried(f, first, number, tried)
      decreases all - tried
    {
      TryNext(f, first, number, tried);
      SubsetSize(tried, all);
      number := number + 1;
      if f(number) !in titles {
        return;
      }
      tried := tried + {f(number)};
    }
  }

  method NextForkTitle(title: string, titles: seq<string>) returns (result: string, number: nat, first: nat)
    ensures result == Candidate(Origin(title).0, number) && result !in titles
    // The number exceeds the title's own and that of every related title.
    ensures Highest(first, Origin(title).1, Origin(title).0, titles) && first < number
    ensures |result| <= 255 <==> |Suffix(number)| <= 255
    // Every number passed over was taken, and at most |titles| + 1 numbers are tried.
    ensures number <= first + |titles| + 1
    ensures forall n: nat :: first < n < number ==> Candidate(Origin(title).0, n) in titles
  {
    var base := Origin(title).0;
    first := HighestNumber(base, Origin(title).1, titles);
    var candidate := (n: nat) => Candidate(base, n);
    forall m: nat, n: nat | m != n ensures candidate(m) != candidate(n) {
      CandidatesDiffer(base, m, n);
    }
    number := FirstFree(candidate, first, titles);
    assert forall n: nat :: candidate(n) == Candidate(base, n);
    result := Candidate(base, number);
    CandidateLength(base, number);
  }

  lemma {:induction false} SetSize(xs: seq<string>)
    ensures |set x | x in xs| <= |xs|
  {
    if xs != [] {
      SetSize(xs[1..]);
      assert (set x | x in xs) == (set x | x in xs[1..]) + {xs[0]};
    }
  }

}
