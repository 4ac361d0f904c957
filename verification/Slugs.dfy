/**
 Slug allocation: the collision loop for sources (migrations/versions/0004_source_slugs.py) and the
 sequence for articles (migrations/versions/0001_initial.py:1989-2013). Both start from a text that is
 already lower-case, decomposed and freed of combining marks.
 */
module Slugs {
  import opened Decimals
  import opened Options
  import Runs

  type Id = int

  const LONGEST_BASE := 170
  const LONGEST_SLUG := 200

  /* ---------- from a name to a base ---------- */

  predicate Alnum(c: char) {
    'a' <= c <= 'z' || '0' <= c <= '9'
  }

  predicate Hex(c: char) {
    'a' <= c <= 'f' || '0' <= c <= '9'
  }

  /** regexp_replace('[^a-z0-9]+', '-', 'g'). */
  function Collapsed(s: string): string {
    if s == "" then ""
    else
      var rest, c := Collapsed(s[..|s| - 1]), s[|s| - 1];
      if Alnum(c) then rest + [c]
      else if rest != "" && rest[|rest| - 1] == '-' then rest
      else rest + "-"
  }

  function TrimmedLeft(s: string): string {
    if s != "" && s[0] == '-' then TrimmedLeft(s[1..]) else s
  }

  function TrimmedRight(s: string): string {
    if s != "" && s[|s| - 1] == '-' then TrimmedRight(s[..|s| - 1]) else s
  }

  function Left(s: string, n: nat): string {
    if |s| <= n then s else s[..n]
  }

  function BaseOf(folded: string, fallback: string): string {
    var base := TrimmedRight(TrimmedLeft(Left(Collapsed(folded), LONGEST_BASE)));
    if base == "" then fallback else base
  }

  /** ^[a-f0-9]{8}-([a-f0-9]{4}-){3}[a-f0-9]{12}$: the text form of a UUID. */
  predicate Uuid(s: string) {
    && |s| == 36 && s[8] == '-' && s[13] == '-' && s[18] == '-' && s[23] == '-'
    && forall i | 0 <= i < 36 && i != 8 && i != 13 && i != 18 && i != 23 :: Hex(s[i])
  }

  /** Everything of a UUID but its last group. */
  predicate UuidHead(s: string) {
    && |s| == 23 && s[8] == '-' && s[13] == '-' && s[18] == '-'
    && forall i | 0 <= i < 23 && i != 8 && i != 13 && i != 18 :: Hex(s[i])
  }

  function SourceBase(folded: string): string {
    var base := BaseOf(folded, "source");
    if base == "suggest" || Uuid(base) then "source-" + base else base
  }

  function Candidate(base: string, suffix: nat): string {
    if suffix <= 1 then base else base + "-" + Decimal(suffix)
  }

  /* ---------- the shape of a slug ---------- */

  predicate NoDoubleDash(s: string) {
    && (forall c | c in s :: Alnum(c) || c == '-')
    && forall i | 0 < i < |s| :: s[i - 1] != '-' || s[i] != '-'
  }

  /** ^[a-z0-9]+(-[a-z0-9]+)*$. */
  predicate Slug(s: string) {
    s != "" && NoDoubleDash(s) && s[0] != '-' && s[|s| - 1] != '-'
  }

  /** ck_sources_slug, and the column's length. */
  predicate Allowed(s: string) {
    Slug(s) && s != "suggest" && !Uuid(s) && |s| <= LONGEST_SLUG
  }

  lemma {:induction false} CollapsedHasNoDoubleDash(s: string)
    ensures NoDoubleDash(Collapsed(s))
  {
    if s != "" {
      CollapsedHasNoDoubleDash(s[..|s| - 1]);
    }
  }

  lemma {:induction false} TrimmedLeftIsTrimmed(s: string)
    requires NoDoubleDash(s)
    ensures var r := TrimmedLeft(s); NoDoubleDash(r) && |r| <= |s| && (r != "" ==> r[0] != '-')
  {
    if s != "" && s[0] == '-' {
      TrimmedLeftIsTrimmed(s[1..]);
    }
  }

  lemma {:induction false} TrimmedRightIsTrimmed(s: string)
    requires NoDoubleDash(s) && (s != "" ==> s[0] != '-')
    ensures var r := TrimmedRight(s); NoDoubleDash(r) && |r| <= |s| && (r != "" ==> Slug(r))
  {
    if s != "" && s[|s| - 1] == '-' {
      TrimmedRightIsTrimmed(s[..|s| - 1]);
    }
  }

  /** Whatever the name, the base is a slug of at most 170 characters. */
  lemma BaseIsSlug(folded: string, fallback: string)
    requires Slug(fallback) && |fallback| <= LONGEST_BASE
    ensures Slug(BaseOf(folded, fallback)) && |BaseOf(folded, fallback)| <= LONGEST_BASE
  {
    CollapsedHasNoDoubleDash(folded);
    var left := Left(Collapsed(folded), LONGEST_BASE);
    TrimmedLeftIsTrimmed(left);
    TrimmedRightIsTrimmed(TrimmedLeft(left));
  }

  /** A source name can give no reserved base: neither the route "suggest" nor the text of a UUID. */
  lemma SourceBaseIsAllowed(folded: string)
    ensures Allowed(SourceBase(folded)) && |SourceBase(folded)| <= LONGEST_BASE
  {
    BaseIsSlug(folded, "source");
    var base := BaseOf(folded, "source");
    assert "source"[0] == 's';
    if base == "suggest" || Uuid(base) {
      var prefixed := "source-" + base;
      assert prefixed[0] == 's' && |prefixed| == |base| + 7;
      assert forall i | 7 <= i < |prefixed| :: prefixed[i] == base[i - 7];
      PrefixedIsSlug(base);
    }
  }

  lemma PrefixedIsSlug(base: string)
    requires Slug(base)
    ensures Slug("source-" + base)
  {
    var s := "source-" + base;
    assert s[0] == 's' && s[|s| - 1] == base[|base| - 1];
    forall i | 0 < i < |s| ensures s[i - 1] != '-' || s[i] != '-' {
      if i > 7 { assert s[i] == base[i - 7] && s[i - 1] == base[i - 8]; }
    }
  }

  /* ---------- numbered candidates ---------- */

  lemma SuffixedIsSlug(base: string, suffix: nat)
    requires Slug(base)
    ensures Slug(base + "-" + Decimal(suffix))
  {
    var digits := Decimal(suffix);
    var s := base + "-" + digits;
    assert s[0] == base[0] && s[|s| - 1] == digits[|digits| - 1];
    forall i | 0 <= i < |s| ensures (Alnum(s[i]) || s[i] == '-') && (i > 0 ==> s[i - 1] != '-' || s[i] != '-') {
      if i > |base| {
        assert s[i] == digits[i - |base| - 1];
        if i > |base| + 1 { assert s[i - 1] == digits[i - |base| - 2]; }
      } else if i == |base| {
        assert s[i - 1] == base[|base| - 1];
      } else {
        assert s[i] == base[i] && (i > 0 ==> s[i - 1] == base[i - 1]);
      }
    }
  }

  /** A numbered slug takes the form of a UUID exactly when a number of twelve digits completes one. */
  lemma SuffixedIsUuid(base: string, suffix: nat)
    ensures Uuid(base + "-" + Decimal(suffix)) <==> UuidHead(base) && |Decimal(suffix)| == 12
  {
    var digits := Decimal(suffix);
    var s := base + "-" + digits;
    assert s[|base|] == '-';
    assert forall i | 0 <= i < |base| :: s[i] == base[i];
    assert forall i | 0 <= i < |digits| :: s[|base| + 1 + i] == digits[i];
    if |s| == 36 && |base| < 23 {
      assert s[23] == digits[22 - |base|];
    }
  }

  lemma CandidateLength(suffix: nat)
    requires suffix < PowerOfTen(29)
    ensures |Decimal(suffix)| <= 29
  {
    DecimalLength(suffix, 29);
  }

  /** The exact condition under which an allocated slug meets the constraint of its table. */
  lemma CandidateIsAllowed(folded: string, suffix: nat)
    requires suffix < PowerOfTen(29)
    ensures var base := SourceBase(folded);
            Allowed(Candidate(base, suffix)) <==> !(suffix > 1 && UuidHead(base) && |Decimal(suffix)| == 12)
  {
    SourceBaseIsAllowed(folded);
    var base := SourceBase(folded);
    if suffix > 1 {
      SuffixedIsSlug(base, suffix);
      SuffixedIsUuid(base, suffix);
      CandidateLength(suffix);
      var s := base + "-" + Decimal(suffix);
      assert s[|base|] == '-' && forall i | 0 <= i < 7 :: "suggest"[i] != '-';
    }
  }

  lemma InitialPartHasNoDoubleDash(s: string)
    requires NoDoubleDash(s) && s != ""
    ensures NoDoubleDash(s[..|s| - 1])
  {
    forall c | c in s[..|s| - 1] ensures c in s {
    }
  }

  lemma {:induction false} CollapsedKeepsSlugs(s: string)
    requires NoDoubleDash(s)
    ensures Collapsed(s) == s
  {
    if s != "" {
      var rest, last := s[..|s| - 1], s[|s| - 1];
      InitialPartHasNoDoubleDash(s);
      CollapsedKeepsSlugs(rest);
      assert s == rest + [last];
      assert Alnum(last) || (last == '-' && (rest == "" || rest[|rest| - 1] != '-'));
    }
  }

  /** A name that reads like a UUID without its last group, and the numbers that complete it. */
  lemma TwelveDigitsCompleteUuid(suffix: nat)
    requires |Decimal(suffix)| == 12
    ensures SourceBase("abcdef01-2345-6789-abcd") == "abcdef01-2345-6789-abcd"
    ensures !Allowed(Candidate("abcdef01-2345-6789-abcd", suffix))
  {
    var name := "abcdef01-2345-6789-abcd";
    assert UuidHead(name) && Slug(name);
    SlugIsItsBase(name);
    SuffixedIsUuid(name, suffix);
  }

  lemma SlugIsItsBase(s: string)
    requires Slug(s) && |s| <= LONGEST_BASE && s != "suggest" && !Uuid(s)
    ensures SourceBase(s) == s
  {
    CollapsedKeepsSlugs(s);
  }

  lemma CandidatesDiffer(base: string, m: nat, n: nat)
    requires 1 <= m < n
    ensures Candidate(base, m) != Candidate(base, n)
  {
    assert Candidate(base, n)[|base| + 1..] == Decimal(n);
    if m > 1 && Candidate(base, m) == Candidate(base, n) {
      assert Candidate(base, m)[|base| + 1..] == Decimal(m);
      DecimalIsInjective(m, n);
    }
  }

  /* ---------- the loop ---------- */

  function Tried(base: string, n: nat): (candidates: set<string>)
    ensures forall k | 1 <= k <= n :: Candidate(base, k) in candidates
  {
    if n == 0 then {} else Tried(base, n - 1) + {Candidate(base, n)}
  }

  lemma {:induction false} TriedAreDistinct(base: string, n: nat)
    ensures |Tried(base, n)| == n
    ensures forall c | c in Tried(base, n) :: exists k :: 1 <= k <= n && c == Candidate(base, k)
  {
    if n > 0 {
      TriedAreDistinct(base, n - 1);
      if Candidate(base, n) in Tried(base, n - 1) {
        var k :| 1 <= k <= n - 1 && Candidate(base, n) == Candidate(base, k);
        CandidatesDiffer(base, k, n);
      }
      forall c | c in Tried(base, n) ensures exists k :: 1 <= k <= n && c == Candidate(base, k) {
        if c in Tried(base, n - 1) {
          var k :| 1 <= k <= n - 1 && c == Candidate(base, k);
        }
      }
    }
  }

  lemma SubsetIsNoLarger<T>(small: set<T>, large: set<T>)
    requires small <= large
    ensures |small| <= |large|
  {
    assert large == small + (large - small);
  }

  /** With every candidate up to n taken, there are at least n slugs. */
  lemma TakenCandidatesCount(base: string, n: nat, slugs: set<string>)
    requires forall k | 1 <= k <= n :: Candidate(base, k) in slugs
    ensures n <= |slugs|
  {
    TriedAreDistinct(base, n);
    SubsetIsNoLarger(Tried(base, n), slugs);
  }

  /** The first free candidate: all before it are taken, so it comes within the number of slugs. */
  ghost predicate FirstFree(slugs: set<string>, base: string, suffix: nat) {
    && 1 <= suffix <= |slugs| + 1 && Candidate(base, suffix) !in slugs
    && forall k | 1 <= k < suffix :: Candidate(base, k) in slugs
  }

  /** new_source_slug. */
  method NewSourceSlug(slugs: set<string>, folded: string) returns (candidate: string, suffix: nat)
    ensures FirstFree(slugs, SourceBase(folded), suffix) && candidate == Candidate(SourceBase(folded), suffix)
    ensures |slugs| < PowerOfTen(11) - 1 ==> Allowed(candidate)
  {
    var base := SourceBase(folded);
    suffix := 1;
    candidate := base;
    while candidate in slugs
      invariant 1 <= suffix <= |slugs| + 1 && candidate == Candidate(base, suffix)
      invariant forall k | 1 <= k < suffix :: Candidate(base, k) in slugs
      decreases |slugs| + 1 - suffix
    {
      TakenCandidatesCount(base, suffix, slugs);
      suffix := suffix + 1;
      candidate := base + "-" + Decimal(suffix);
    }
    if |slugs| < PowerOfTen(11) - 1 {
      FewSourcesAreAllowed(folded, suffix);
    }
  }

  lemma FewSourcesAreAllowed(folded: string, suffix: nat)
    requires suffix < PowerOfTen(11)
    ensures Allowed(Candidate(SourceBase(folded), suffix))
  {
    DecimalLength(suffix, 11);
    PowersOrdered(11, 29);
    CandidateIsAllowed(folded, suffix);
  }

  lemma {:induction false} PowersOrdered(m: nat, n: nat)
    requires m <= n
    ensures PowerOfTen(m) <= PowerOfTen(n)
  {
    if m < n {
      PowersOrdered(m, n - 1);
    }
  }

  /* ---------- the sources table ---------- */

  datatype Source = Source(folded: string, slug: Option<string>)

  ghost predicate Unique(sources: map<Id, Source>) {
    forall a, b | a in sources && b in sources && a != b && sources[a].slug.Some? :: sources[a].slug != sources[b].slug
  }

  function SlugsIn(sources: map<Id, Source>): (slugs: set<string>)
    ensures forall id | id in sources && sources[id].slug.Some? :: sources[id].slug.value in slugs
    ensures forall slug | slug in slugs :: exists id :: id in sources && sources[id].slug == Some(slug)
  {
    set id | id in sources && sources[id].slug.Some? :: sources[id].slug.value
  }

  datatype Event =
    | Insert(id: Id, folded: string)
    | Rename(id: Id, folded: string)
    | SetSlug(id: Id, slug: string)
    | Delete(id: Id)

  type Sources = map<Id, Source>

  ghost predicate Allocated(sources: Sources, folded: string, slug: string) {
    exists suffix ::
      FirstFree(SlugsIn(sources), SourceBase(folded), suffix) && slug == Candidate(SourceBase(folded), suffix)
  }

  /** The trigger assigns a slug on INSERT and rejects any UPDATE that would change one. */
  ghost predicate Step(s: Sources, e: Event, t: Sources) {
    match e
    case Insert(id, folded) =>
      id !in s && id in t && t[id].slug.Some? && Allocated(s, folded, t[id].slug.value)
        && t == s[id := Source(folded, t[id].slug)]
    case Rename(id, folded) => id in s && t == s[id := s[id].(folded := folded)]
    case SetSlug(id, slug) => id in s && t == s
    case Delete(id) => t == s - {id}
  }

  ghost predicate Assigned(s: Sources) {
    Unique(s) && forall id | id in s :: s[id].slug.Some?
  }

  lemma StepKeepsAssigned(s: Sources, e: Event, t: Sources)
    requires Assigned(s) && Step(s, e, t)
    ensures Assigned(t)
  {
    match e
    case Insert(id, folded) =>
      forall other | other in s ensures s[other].slug != t[id].slug {
        assert s[other].slug.value in SlugsIn(s);
      }
    case _ =>
  }

  /** In every run slugs are unique, and every source has one. */
  lemma RunKeepsSlugsUnique(states: seq<Sources>, events: seq<Event>, i: nat)
    requires |states| > 0 && Assigned(states[0]) && Runs.Run(states[0], Step, states, events) && i < |states|
    ensures Assigned(states[i])
  {
    forall s: Sources, e: Event, t: Sources | Assigned(s) && Step(s, e, t) ensures Assigned(t) {
      StepKeepsAssigned(s, e, t);
    }
    Runs.Stays(states[0], Step, Assigned, states, events, 0, i);
  }

  /** While a source exists, its slug is the one it was given, whatever else is inserted, renamed or deleted. */
  lemma {:induction false} SlugsAreImmutable(states: seq<Sources>, events: seq<Event>, i: nat, j: nat, id: Id)
    requires |states| > 0 && Runs.Run(states[0], Step, states, events) && i <= j < |states|
    requires forall k | i <= k <= j :: id in states[k]
    ensures states[j][id].slug == states[i][id].slug
    decreases j
  {
    if i < j {
      SlugsAreImmutable(states, events, i, j - 1, id);
      assert Step(states[j - 1], events[j - 1], states[j - 1 + 1]);
    }
  }

  /** Fewer than ten to the eleventh minus one sources, so no more slugs than that. */
  ghost predicate StepOfFew(s: Sources, e: Event, t: Sources) {
    Step(s, e, t) && |s| < PowerOfTen(11) - 1
  }

  lemma {:induction false} ImageIsNoLarger<A, B>(f: A -> B, xs: set<A>, ys: set<B>)
    requires forall y | y in ys :: exists x :: x in xs && f(x) == y
    ensures |ys| <= |xs|
    decreases |ys|
  {
    if ys != {} {
      var y :| y in ys;
      var x :| x in xs && f(x) == y;
      forall z | z in ys - {y} ensures exists w :: w in xs - {x} && f(w) == z {
        var w :| w in xs && f(w) == z;
        assert w in xs - {x};
      }
      ImageIsNoLarger(f, xs - {x}, ys - {y});
    }
  }

  lemma SlugsAreNoMoreThanSources(s: Sources)
    ensures |SlugsIn(s)| <= |s|
  {
    var f := (id: Id) => if id in s then s[id].slug.GetOr("") else "";
    forall slug | slug in SlugsIn(s) ensures exists id :: id in s.Keys && f(id) == slug {
      var id :| id in s && s[id].slug == Some(slug);
      assert f(id) == slug;
    }
    ImageIsNoLarger(f, s.Keys, SlugsIn(s));
  }

  ghost predicate AllAllowed(s: Sources) {
    forall id | id in s && s[id].slug.Some? :: Allowed(s[id].slug.value)
  }

  /** As long as there are not a hundred billion sources, every slug meets the table's constraint. */
  lemma RunKeepsSlugsAllowed(states: seq<Sources>, events: seq<Event>, i: nat)
    requires |states| > 0 && AllAllowed(states[0]) && Runs.Run(states[0], StepOfFew, states, events) && i < |states|
    ensures AllAllowed(states[i])
  {
    forall s: Sources, e: Event, t: Sources | AllAllowed(s) && StepOfFew(s, e, t) ensures AllAllowed(t) {
      if e.Insert? {
        var suffix :| FirstFree(SlugsIn(s), SourceBase(e.folded), suffix)
          && t[e.id].slug.value == Candidate(SourceBase(e.folded), suffix);
        SlugsAreNoMoreThanSources(s);
        FewSourcesAreAllowed(e.folded, suffix);
      }
    }
    Runs.Stays(states[0], StepOfFew, AllAllowed, states, events, 0, i);
  }

  class SourceTable {
    var sources: Sources

    constructor (sources: Sources)
      requires forall id | id in sources :: sources[id].slug.None?
      ensures this.sources == sources
    {
      this.sources := sources;
    }

    method Allocate(folded: string) returns (slug: string)
      ensures Allocated(sources, folded, slug) && slug !in SlugsIn(sources)
    {
      var suffix;
      slug, suffix := NewSourceSlug(SlugsIn(sources), folded);
    }

    /** The ordered backfill: each source is given the first slug left free by those before it. */
    method Backfill(order: seq<Id>)
      requires forall id | id in sources :: sources[id].slug.None? && id in order
      requires forall i | 0 <= i < |order| :: order[i] in sources && forall j | 0 <= j < i :: order[j] != order[i]
      modifies this
      ensures Assigned(sources) && Backfilled(old(sources), order, sources)
    {
      ghost var start := sources;
      for i := 0 to |order|
        invariant GivenTo(start, order[..i], sources)
      {
        assert order[..i + 1] == order[..i] + [order[i]] && order[i] !in order[..i];
        var slug := Allocate(sources[order[i]].folded);
        GivenToOneMore(start, order[..i], sources, order[i], slug);
        sources := sources[order[i] := sources[order[i]].(slug := Some(slug))];
      }
      assert order[..|order|] == order;
    }

    method Insert(id: Id, folded: string)
      requires id !in sources
      modifies this
      ensures Step(old(sources), Event.Insert(id, folded), sources)
    {
      var slug := Allocate(folded);
      sources := sources[id := Source(folded, Some(slug))];
    }

    method Update(id: Id, folded: string, slug: Option<string>) returns (ok: bool)
      requires id in sources
      modifies this
      ensures ok <==> slug == old(sources)[id].slug
      ensures if ok then Step(old(sources), Event.Rename(id, folded), sources) else sources == old(sources)
    {
      if slug != sources[id].slug { return false; }
      sources := sources[id := sources[id].(folded := folded)];
      ok := true;
    }
  }

  /** One UPDATE after the other, each with the slug allocated at its turn. */
  ghost predicate Backfilled(start: Sources, order: seq<Id>, end: Sources)
    decreases |order|
  {
    if order == [] then end == start
    else exists between: Sources, slug :: BackfilledLast(start, order, between, slug, end)
  }

  ghost predicate BackfilledLast(start: Sources, order: seq<Id>, between: Sources, slug: string, end: Sources)
    requires order != []
    decreases |order|, 0
  {
    var last := |order| - 1;
    && Backfilled(start, order[..last], between) && order[last] in between
    && Allocated(between, between[order[last]].folded, slug)
    && end == between[order[last] := between[order[last]].(slug := Some(slug))]
  }

  /** The backfill so far: these sources, and no others, have their slugs. */
  ghost predicate GivenTo(start: Sources, done: seq<Id>, sources: Sources) {
    && Unique(sources) && sources.Keys == start.Keys && Backfilled(start, done, sources)
    && forall id | id in sources :: sources[id].slug.Some? <==> id in done
  }

  lemma GivenToOneMore(start: Sources, done: seq<Id>, sources: Sources, id: Id, slug: string)
    requires GivenTo(start, done, sources) && id in sources && id !in done
    requires Allocated(sources, sources[id].folded, slug) && slug !in SlugsIn(sources)
    ensures GivenTo(start, done + [id], sources[id := sources[id].(slug := Some(slug))])
  {
    BackfillGoesOn(start, done, sources, id, slug);
  }

  lemma BackfillGoesOn(start: Sources, order: seq<Id>, sources: Sources, id: Id, slug: string)
    requires Backfilled(start, order, sources) && id in sources && Allocated(sources, sources[id].folded, slug)
    ensures Backfilled(start, order + [id], sources[id := sources[id].(slug := Some(slug))])
  {
    assert (order + [id])[..|order|] == order;
    assert BackfilledLast(start, order + [id], sources, slug, sources[id := sources[id].(slug := Some(slug))]);
  }

  /* ---------- articles ---------- */

  /** new_article_slug with the next number of the sequence. */
  function ArticleSlug(folded: string, number: nat): string {
    BaseOf(folded, "article") + "-" + Decimal(number)
  }

  /** Numbers alone keep article slugs apart, whatever the titles: no digit is a dash. */
  lemma ArticleSlugsAreUnique(a: string, m: nat, b: string, n: nat)
    requires m != n
    ensures ArticleSlug(a, m) != ArticleSlug(b, n)
  {
    LastGroup(BaseOf(a, "article"), Decimal(m), BaseOf(b, "article"), Decimal(n));
    if ArticleSlug(a, m) == ArticleSlug(b, n) {
      DecimalIsInjective(m, n);
    }
  }

  lemma LastGroup(a: string, m: string, b: string, n: string)
    requires Digits(m) && Digits(n)
    ensures a + "-" + m == b + "-" + n ==> m == n
  {
    var x, y := a + "-" + m, b + "-" + n;
    assert x[|a|] == '-' && y[|b|] == '-' && x[|a| + 1..] == m && y[|b| + 1..] == n;
    if |a| < |b| && |b| < |x| {
      assert x[|b|] == m[|b| - |a| - 1];
    } else if |b| < |a| && |a| < |y| {
      assert y[|a|] == n[|a| - |b| - 1];
    }
  }

  lemma ArticleSlugIsSlug(folded: string, number: nat)
    requires number < PowerOfTen(29)
    ensures Slug(ArticleSlug(folded, number)) && |ArticleSlug(folded, number)| <= LONGEST_SLUG
  {
    assert "article"[0] == 'a';
    BaseIsSlug(folded, "article");
    SuffixedIsSlug(BaseOf(folded, "article"), number);
    CandidateLength(number);
  }
}
