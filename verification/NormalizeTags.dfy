/**
 The in-place repair of tag identities in scripts/normalize_tags.py: one pass over the tags that renames
 or merges them through a mutable index of slugs.
 */
module NormalizeTags {
  import opened Options

  type Id = int
  type Article = int

  datatype Tag = Tag(name: string, slug: string, aliases: seq<string>, topic: Option<Id>, auto: bool)

  datatype Origin = Manual | Source | Ai | Heuristic | Unranked(text: string)

  type Links = map<(Article, Id), Origin>

  datatype State = State(tags: map<Id, Tag>, links: Links, bySlug: map<string, Id>)

  /** normalize_tag_name, source_tag_slug and the pattern of a well-formed slug. */
  datatype Naming = Naming(name: string -> string, slug: string -> string, wellFormed: string -> bool)

  const MOST_ALIASES := 100

  function Rank(origin: Origin): nat {
    match origin
    case Manual => 4
    case Source => 3
    case Ai => 2
    case Heuristic => 1
    case Unranked(_) => 0
  }

  /** Every text under which a tag is found. */
  function Labels(tag: Tag): set<string> {
    {tag.name, tag.slug} + set alias | alias in tag.aliases
  }

  /* ---------- what one tag is to become ---------- */

  function NewSlug(n: Naming, tag: Tag): string {
    var name := n.name(tag.name);
    var canonical := n.slug(name);
    if name != tag.name && "sharp-" <= tag.slug && tag.slug[6..] == canonical then canonical
    else if !n.wellFormed(tag.slug) then n.slug(tag.slug)
    else tag.slug
  }

  /** by_slug.get(slug, tag). */
  function Target(n: Naming, s: State, id: Id): Id
    requires id in s.tags
  {
    var slug := NewSlug(n, s.tags[id]);
    if slug in s.bySlug then s.bySlug[slug] else id
  }

  /** The values in order of first appearance, without the excluded ones. */
  function Distinct(values: seq<string>, excluded: set<string>): (r: seq<string>)
    ensures forall v :: v in r <==> v in values && v !in excluded
  {
    if values == [] then []
    else
      var rest := Distinct(values[..|values| - 1], excluded);
      var last := values[|values| - 1];
      if last in excluded || last in values[..|values| - 1] then rest else rest + [last]
  }

  function NewName(n: Naming, s: State, id: Id): string
    requires id in s.tags && Target(n, s, id) in s.tags
  {
    if Target(n, s, id) == id then n.name(s.tags[id].name) else s.tags[Target(n, s, id)].name
  }

  function NewAliases(n: Naming, s: State, id: Id): seq<string>
    requires id in s.tags && Target(n, s, id) in s.tags
  {
    var tag, target := s.tags[id], s.tags[Target(n, s, id)];
    Distinct(target.aliases + tag.aliases + [tag.name, tag.slug], {NewName(n, s, id), NewSlug(n, tag)})
  }

  datatype Verdict = Same | Conflict | Rename | Merge

  /** A mapped tag only joins a tag of the same topic, and a tag that was mapped by hand only one mapped alike. */
  predicate TopicsDisagree(tag: Tag, target: Tag) {
    (tag.topic.Some? && tag.topic != target.topic) || (!tag.auto && tag.topic != target.topic)
  }

  function Judge(n: Naming, s: State, id: Id): Verdict
    requires id in s.tags && Target(n, s, id) in s.tags
  {
    var tag, target := s.tags[id], Target(n, s, id);
    if n.name(tag.name) == tag.name && NewSlug(n, tag) == tag.slug then Same
    else if n.name(tag.name) == "" || (target != id && TopicsDisagree(tag, s.tags[target])) then Conflict
    else if |NewAliases(n, s, id)| > MOST_ALIASES then Conflict
    else if target == id then Rename
    else Merge
  }

  /* ---------- one pass of the loop ---------- */

  function Stronger(a: Origin, b: Origin): Origin {
    if Rank(a) > Rank(b) then a else b
  }

  function LinkAt(links: Links, key: (Article, Id)): Option<Origin> {
    if key in links then Some(links[key]) else None
  }

  /** ON CONFLICT DO UPDATE, where the excluded origin ranks higher. */
  function Upserted(excluded: Option<Origin>, present: Option<Origin>): Option<Origin> {
    if excluded.Some? && present.Some? then Some(Stronger(excluded.value, present.value))
    else if present.Some? then present else excluded
  }

  function Moved(links: Links, from: Id, into: Id): (keys: set<(Article, Id)>)
    ensures forall key :: key in keys <==> key.1 == into && (key.0, from) in links
  {
    set key | key in links && key.1 == from :: (key.0, into)
  }

  /** INSERT ... SELECT the links of the merged tag under its target, then DELETE them. */
  function MergedLinks(links: Links, from: Id, into: Id): Links {
    var inserted := links + map key | key in Moved(links, from, into) ::
      Upserted(LinkAt(links, (key.0, from)), LinkAt(links, key)).value;
    map key | key in inserted && key.1 != from :: inserted[key]
  }

  lemma MergedLinksAt(links: Links, from: Id, into: Id, a: Article, t: Id)
    requires from != into
    ensures LinkAt(MergedLinks(links, from, into), (a, t)) ==
            if t == from then None
            else if t == into then Upserted(LinkAt(links, (a, from)), LinkAt(links, (a, into)))
            else LinkAt(links, (a, t))
  {
  }

  function RenamedTo(s: State, id: Id, name: string, slug: string, aliases: seq<string>): State
    requires id in s.tags
  {
    s.(tags := s.tags[id := s.tags[id].(name := name, slug := slug, aliases := aliases)],
       bySlug := (s.bySlug - {s.tags[id].slug})[slug := id])
  }

  function Renamed(n: Naming, s: State, id: Id): State
    requires id in s.tags && Target(n, s, id) == id
  {
    RenamedTo(s, id, NewName(n, s, id), NewSlug(n, s.tags[id]), NewAliases(n, s, id))
  }

  function AbsorbedBy(s: State, id: Id, into: Id, aliases: seq<string>): State
    requires id in s.tags && into in s.tags && into != id
  {
    var next := s.tags[into].(aliases := aliases, auto := s.tags[into].auto && s.tags[id].auto);
    s.(tags := (s.tags - {id})[into := next], links := MergedLinks(s.links, id, into))
  }

  function Absorbed(n: Naming, s: State, id: Id): State
    requires id in s.tags && Target(n, s, id) in s.tags && Target(n, s, id) != id
  {
    AbsorbedBy(s, id, Target(n, s, id), NewAliases(n, s, id))
  }

  function Pass(n: Naming, s: State, id: Id): State
    requires id in s.tags && Target(n, s, id) in s.tags
  {
    match Judge(n, s, id)
    case Same => s
    case Conflict => s
    case Rename => Renamed(n, s, id)
    case Merge => Absorbed(n, s, id)
  }

  /* ---------- what one pass keeps ---------- */

  /** The index knows every tag by its slug and by no other (so slugs are unique); merged tags may linger in it. */
  ghost predicate Agrees(s: State) {
    && (forall t | t in s.tags :: s.tags[t].slug in s.bySlug && s.bySlug[s.tags[t].slug] == t)
    && (forall slug | slug in s.bySlug && s.bySlug[slug] in s.tags :: s.tags[s.bySlug[slug]].slug == slug)
  }

  lemma PassKeepsIndex(n: Naming, s: State, id: Id)
    requires Agrees(s) && id in s.tags && Target(n, s, id) in s.tags
    ensures Agrees(Pass(n, s, id))
  {
  }

  /** Renaming adds the new labels and drops none; merging hands over all labels and adds none. */
  lemma RenameKeepsLabels(n: Naming, s: State, id: Id)
    requires Agrees(s) && id in s.tags && Target(n, s, id) == id
    ensures Labels(Renamed(n, s, id).tags[id]) == Labels(s.tags[id]) + {n.name(s.tags[id].name), NewSlug(n, s.tags[id])}
  {
  }

  lemma MergeKeepsLabels(n: Naming, s: State, id: Id)
    requires Agrees(s) && id in s.tags && Target(n, s, id) in s.tags && Target(n, s, id) != id
    ensures Labels(Absorbed(n, s, id).tags[Target(n, s, id)]) == Labels(s.tags[Target(n, s, id)]) + Labels(s.tags[id])
  {
    assert s.tags[Target(n, s, id)].slug == NewSlug(n, s.tags[id]);
  }

  /* ---------- where every original tag ends up ---------- */

  type Canon = map<Id, Id>

  function Follow(canon: Canon, id: Id, into: Id): Canon {
    map t | t in canon :: if canon[t] == id then into else canon[t]
  }

  /** Each original tag has a surviving one, which answers to all its labels and keeps its topic decisions. */
  ghost predicate Identities(original: map<Id, Tag>, tags: map<Id, Tag>, canon: Canon) {
    && canon.Keys == original.Keys
    && (forall t | t in tags :: t in canon && canon[t] == t)
    && forall t | t in canon :: canon[t] in tags && Represents(original[t], tags[canon[t]])
  }

  ghost predicate Represents(tag: Tag, heir: Tag) {
    && Labels(tag) <= Labels(heir)
    && (tag.topic.Some? || !tag.auto ==> heir.topic == tag.topic)
    && (!tag.auto ==> !heir.auto)
  }

  lemma RepresentsTwice(tag: Tag, heir: Tag, next: Tag)
    requires Represents(tag, heir) && Represents(heir, next)
    ensures Represents(tag, next)
  {
  }

  /** An article keeps a link exactly where one of the joined tags had it, with the strongest of their origins. */
  ghost predicate LinksOf(original: Links, links: Links, canon: Canon) {
    && (forall a, t | t in canon && (a, t) in original ::
          (a, canon[t]) in links && Rank(links[(a, canon[t])]) >= Rank(original[(a, t)]))
    && (forall a, u | (a, u) in links ::
          exists t :: t in canon && canon[t] == u && (a, t) in original && original[(a, t)] == links[(a, u)])
  }

  lemma RenamedRepresents(n: Naming, s: State, id: Id)
    requires Agrees(s) && id in s.tags && Target(n, s, id) == id
    ensures Represents(s.tags[id], Renamed(n, s, id).tags[id])
  {
    RenameKeepsLabels(n, s, id);
  }

  /** The target represents itself as it was, and the tag that is merged away. */
  lemma AbsorbedRepresents(n: Naming, s: State, id: Id)
    requires Agrees(s) && id in s.tags && Target(n, s, id) in s.tags && Judge(n, s, id) == Merge
    ensures var into := Target(n, s, id); var heir := Absorbed(n, s, id).tags[into];
            Represents(s.tags[id], heir) && Represents(s.tags[into], heir)
  {
    MergeKeepsLabels(n, s, id);
  }

  lemma IdentitiesAfterRename(original: map<Id, Tag>, tags: map<Id, Tag>, canon: Canon, id: Id, next: Tag)
    requires Identities(original, tags, canon) && id in tags && Represents(tags[id], next)
    ensures Identities(original, tags[id := next], canon)
  {
    forall t | t in canon ensures Represents(original[t], tags[id := next][canon[t]]) {
      if canon[t] == id { RepresentsTwice(original[t], tags[id], next); }
    }
  }

  lemma HeirAfterMerge(tag: Tag, tags: map<Id, Tag>, heir: Id, id: Id, into: Id, next: Tag)
    requires heir in tags && Represents(tag, tags[heir]) && id in tags && into in tags && id != into
    requires Represents(tags[id], next) && Represents(tags[into], next)
    ensures var after := (tags - {id})[into := next]; var heir' := if heir == id then into else heir;
            heir' in after && Represents(tag, after[heir'])
  {
    if heir == id || heir == into { RepresentsTwice(tag, tags[heir], next); }
  }

  lemma SurvivorsAfterMerge(tags: map<Id, Tag>, canon: Canon, id: Id, into: Id, next: Tag)
    requires (forall t | t in tags :: t in canon && canon[t] == t) && id in tags && into in tags && id != into
    ensures forall t | t in (tags - {id})[into := next] ::
              t in Follow(canon, id, into) && Follow(canon, id, into)[t] == t
  {
  }

  lemma IdentitiesAfterMerge(original: map<Id, Tag>, tags: map<Id, Tag>, canon: Canon, id: Id, into: Id, next: Tag)
    requires Identities(original, tags, canon) && id in tags && into in tags && id != into
    requires Represents(tags[id], next) && Represents(tags[into], next)
    ensures Identities(original, (tags - {id})[into := next], Follow(canon, id, into))
  {
    var after, canon' := (tags - {id})[into := next], Follow(canon, id, into);
    assert canon'.Keys == canon.Keys == original.Keys;
    SurvivorsAfterMerge(tags, canon, id, into, next);
    forall t | t in canon' ensures canon'[t] in after && Represents(original[t], after[canon'[t]]) {
      HeirInMerged(original, tags, canon, id, into, next, t);
    }
  }

  lemma HeirInMerged(original: map<Id, Tag>, tags: map<Id, Tag>, canon: Canon, id: Id, into: Id, next: Tag, t: Id)
    requires t in canon && t in original && canon[t] in tags && Represents(original[t], tags[canon[t]])
    requires id in tags && into in tags && id != into && Represents(tags[id], next) && Represents(tags[into], next)
    ensures var heir := Follow(canon, id, into)[t];
            heir in (tags - {id})[into := next] && Represents(original[t], (tags - {id})[into := next][heir])
  {
    HeirAfterMerge(original[t], tags, canon[t], id, into, next);
  }

  lemma RenameKeepsIdentities(n: Naming, original: map<Id, Tag>, s: State, canon: Canon, id: Id)
    requires Agrees(s) && id in s.tags && Target(n, s, id) == id && Identities(original, s.tags, canon)
    ensures Identities(original, Renamed(n, s, id).tags, canon)
  {
    RenamedRepresents(n, s, id);
    IdentitiesAfterRename(original, s.tags, canon, id, Renamed(n, s, id).tags[id]);
  }

  lemma MergeKeepsIdentities(n: Naming, original: map<Id, Tag>, s: State, canon: Canon, id: Id)
    requires Agrees(s) && id in s.tags && Target(n, s, id) in s.tags && Judge(n, s, id) == Merge
    requires Identities(original, s.tags, canon)
    ensures Identities(original, Absorbed(n, s, id).tags, Follow(canon, id, Target(n, s, id)))
  {
    AbsorbedRepresents(n, s, id);
    IdentitiesAfterMerge(original, s.tags, canon, id, Target(n, s, id), Absorbed(n, s, id).tags[Target(n, s, id)]);
  }

  lemma LinkIsKept(original: Links, links: Links, canon: Canon, id: Id, into: Id, a: Article, t: Id)
    requires id != into && t in canon && (a, t) in original
    requires (a, canon[t]) in links && Rank(links[(a, canon[t])]) >= Rank(original[(a, t)])
    ensures var after, u := MergedLinks(links, id, into), Follow(canon, id, into)[t];
            (a, u) in after && Rank(after[(a, u)]) >= Rank(original[(a, t)])
  {
    MergedLinksAt(links, id, into, a, Follow(canon, id, into)[t]);
  }

  lemma LinkHasAnOwner(original: Links, links: Links, canon: Canon, id: Id, into: Id, a: Article, u: Id) returns (t: Id)
    requires LinksOf(original, links, canon) && id != into && (a, u) in MergedLinks(links, id, into)
    ensures t in canon && Follow(canon, id, into)[t] == u && (a, t) in original
    ensures original[(a, t)] == MergedLinks(links, id, into)[(a, u)]
  {
    var after := MergedLinks(links, id, into);
    MergedLinksAt(links, id, into, a, u);
    var owner := if u == into && (a, id) in links && links[(a, id)] == after[(a, u)] then id else u;
    assert (a, owner) in links && links[(a, owner)] == after[(a, u)];
    t :| t in canon && canon[t] == owner && (a, t) in original && original[(a, t)] == links[(a, owner)];
  }

  lemma MergeMovesLinks(original: Links, links: Links, canon: Canon, id: Id, into: Id)
    requires LinksOf(original, links, canon) && id != into
    ensures LinksOf(original, MergedLinks(links, id, into), Follow(canon, id, into))
  {
    var after, canon' := MergedLinks(links, id, into), Follow(canon, id, into);
    forall a, t | t in canon' && (a, t) in original
      ensures (a, canon'[t]) in after && Rank(after[(a, canon'[t])]) >= Rank(original[(a, t)])
    {
      LinkIsKept(original, links, canon, id, into, a, t);
    }
    forall a, u | (a, u) in after
      ensures exists t :: t in canon' && canon'[t] == u && (a, t) in original && original[(a, t)] == after[(a, u)]
    {
      var t := LinkHasAnOwner(original, links, canon, id, into, a, u);
    }
  }

  /* ---------- the whole pass ---------- */

  /** No tag is sent to the slug of a tag that was merged before: every target is still there when its turn comes. */
  ghost predicate TargetsAlive(n: Naming, s: State, rows: seq<Id>)
    decreases |rows|
  {
    rows != [] ==>
      && rows[0] in s.tags && Target(n, s, rows[0]) in s.tags
      && TargetsAlive(n, Pass(n, s, rows[0]), rows[1..])
  }

  predicate UniqueSlugs(tags: map<Id, Tag>) {
    forall a, b | a in tags && b in tags && tags[a].slug == tags[b].slug :: a == b
  }

  function Indexed(tags: map<Id, Tag>): map<string, Id>
    requires UniqueSlugs(tags)
  {
    map t | t in tags :: tags[t].slug := t
  }

  ghost predicate Lists(rows: seq<Id>, tags: map<Id, Tag>) {
    && (forall t :: t in rows <==> t in tags)
    && forall i, j | 0 <= i < j < |rows| :: rows[i] != rows[j]
  }

  /** A condition on the tags alone: whoever sits on a slug that another tag is sent to keeps that slug. */
  ghost predicate Undisturbed(n: Naming, tags: map<Id, Tag>) {
    forall a, b | a in tags && b in tags && a != b && NewSlug(n, tags[b]) == tags[a].slug ::
      NewSlug(n, tags[a]) == tags[a].slug
  }

  /**
   The tags still to come are as they were, and what lingers in the index are the merged tags under their old slugs.
   */
  ghost predicate Underway(n: Naming, original: map<Id, Tag>, s: State, rows: seq<Id>) {
    && (forall t | t in rows ::
         t in s.tags && t in original && s.tags[t].name == original[t].name && s.tags[t].slug == original[t].slug)
    && (forall i, j | 0 <= i < j < |rows| :: rows[i] != rows[j])
    && (forall slug | slug in s.bySlug && s.bySlug[slug] !in s.tags ::
         s.bySlug[slug] in original && original[s.bySlug[slug]].slug == slug
           && NewSlug(n, original[s.bySlug[slug]]) != slug)
    && forall t | t in original && t !in s.tags :: original[t].slug in s.bySlug && s.bySlug[original[t].slug] == t
  }

  lemma AliveFromHere(n: Naming, s: State, rows: seq<Id>, i: nat)
    requires i < |rows| && rows[i] in s.tags
    ensures TargetsAlive(n, s, rows[i..]) <==>
            Target(n, s, rows[i]) in s.tags && TargetsAlive(n, Pass(n, s, rows[i]), rows[i + 1..])
  {
    assert rows[i..][0] == rows[i] && rows[i..][1..] == rows[i + 1..];
  }

  lemma TargetIsAlive(n: Naming, original: map<Id, Tag>, s: State, rows: seq<Id>)
    requires Agrees(s) && Undisturbed(n, original) && Underway(n, original, s, rows) && rows != []
    ensures rows[0] in s.tags && Target(n, s, rows[0]) in s.tags
  {
    var id := rows[0];
    assert NewSlug(n, s.tags[id]) == NewSlug(n, original[id]);
  }

  /** What a pass does to names, slugs and the index. */
  ghost predicate Moves(s: State, next: State, id: Id, verdict: Verdict, name: string, slug: string)
    requires id in s.tags
  {
    match verdict
    case Same => next == s && s.tags[id].name == name && s.tags[id].slug == slug
    case Conflict => next == s
    case Rename =>
      && next.tags.Keys == s.tags.Keys && next.bySlug == (s.bySlug - {s.tags[id].slug})[slug := id]
      && next.tags[id].name == name && next.tags[id].slug == slug && (slug in s.bySlug ==> s.bySlug[slug] == id)
      && forall t | t in s.tags && t != id :: next.tags[t] == s.tags[t]
    case Merge =>
      && next.tags.Keys == s.tags.Keys - {id} && next.bySlug == s.bySlug && slug != s.tags[id].slug
      && forall t | t in next.tags :: next.tags[t].name == s.tags[t].name && next.tags[t].slug == s.tags[t].slug
  }

  lemma PassMoves(n: Naming, s: State, id: Id)
    requires Agrees(s) && id in s.tags && Target(n, s, id) in s.tags
    ensures Moves(s, Pass(n, s, id), id, Judge(n, s, id), n.name(s.tags[id].name), NewSlug(n, s.tags[id]))
  {
    if Judge(n, s, id) == Merge {
      assert Absorbed(n, s, id).tags.Keys == s.tags.Keys - {id};
    }
  }

  lemma SameNewSlug(n: Naming, a: Tag, b: Tag)
    requires a.name == b.name && a.slug == b.slug
    ensures NewSlug(n, a) == NewSlug(n, b)
  {
  }

  lemma UnderwayGoesOn(n: Naming, original: map<Id, Tag>, s: State, next: State, rows: seq<Id>, verdict: Verdict,
                       name: string, slug: string)
    requires Agrees(s) && Underway(n, original, s, rows) && rows != [] && rows[0] in s.tags
    requires Moves(s, next, rows[0], verdict, name, slug) && slug == NewSlug(n, original[rows[0]])
    ensures Underway(n, original, next, rows[1..])
  {
    var id := rows[0];
    forall t | t in rows[1..] ensures t in rows && t != id {
    }
  }

  lemma {:induction false} UndisturbedTagsStayAlive(n: Naming, original: map<Id, Tag>, s: State, rows: seq<Id>)
    requires Agrees(s) && Undisturbed(n, original) && Underway(n, original, s, rows)
    ensures TargetsAlive(n, s, rows)
    decreases |rows|
  {
    if rows != [] {
      TargetIsAlive(n, original, s, rows);
      PassMoves(n, s, rows[0]);
      SameNewSlug(n, s.tags[rows[0]], original[rows[0]]);
      UnderwayGoesOn(n, original, s, Pass(n, s, rows[0]), rows, Judge(n, s, rows[0]),
                     n.name(s.tags[rows[0]].name), NewSlug(n, s.tags[rows[0]]));
      PassKeepsIndex(n, s, rows[0]);
      UndisturbedTagsStayAlive(n, original, Pass(n, s, rows[0]), rows[1..]);
    }
  }

  /** What goes wrong otherwise: the index still sends a later tag to the one that was just merged away. */
  lemma MergedTagsLingerInTheIndex(n: Naming, s: State, first: Id, second: Id)
    requires Agrees(s) && first in s.tags && second in s.tags && first != second && Target(n, s, first) in s.tags
    requires Judge(n, s, first) == Merge && NewSlug(n, s.tags[second]) == s.tags[first].slug
    ensures var after := Pass(n, s, first);
            second in after.tags && Target(n, after, second) == first && first !in after.tags
  {
    PassMoves(n, s, first);
    SameNewSlug(n, s.tags[second], Pass(n, s, first).tags[second]);
  }

  /** A tag that survives without a conflict bears the name and slug it was to have. */
  ghost predicate Repaired(n: Naming, original: map<Id, Tag>, tags: map<Id, Tag>, done: seq<Id>, conflicts: set<Id>) {
    && (forall id | id in conflicts :: id in tags && id in done)
    && forall t | t in done && t in tags && t !in conflicts ::
         t in original && tags[t].name == n.name(original[t].name) && tags[t].slug == NewSlug(n, original[t])
  }

  lemma RepairGoesOn(n: Naming, original: map<Id, Tag>, s: State, next: State, done: seq<Id>, conflicts: set<Id>,
                     id: Id, verdict: Verdict)
    requires Repaired(n, original, s.tags, done, conflicts) && id in original && id in s.tags && id !in done
    requires Moves(s, next, id, verdict, n.name(original[id].name), NewSlug(n, original[id]))
    ensures Repaired(n, original, next.tags, done + [id], if verdict == Conflict then conflicts + {id} else conflicts)
  {
    forall t | t in done + [id] ensures t in done || t == id {
    }
  }

  function NextCanon(n: Naming, s: State, canon: Canon, id: Id): Canon
    requires id in s.tags && Target(n, s, id) in s.tags
  {
    if Judge(n, s, id) == Merge then Follow(canon, id, Target(n, s, id)) else canon
  }

  /** The tags and the canon after a pass, by its verdict. */
  lemma PassByVerdict(n: Naming, s: State, canon: Canon, id: Id)
    requires id in s.tags && Target(n, s, id) in s.tags
    ensures var next, canon' := Pass(n, s, id).tags, NextCanon(n, s, canon, id);
            match Judge(n, s, id)
            case Rename => next == Renamed(n, s, id).tags && canon' == canon
            case Merge => next == Absorbed(n, s, id).tags && canon' == Follow(canon, id, Target(n, s, id))
            case _ => next == s.tags && canon' == canon
  {
  }

  lemma PassKeepsIdentities(n: Naming, original: map<Id, Tag>, s: State, canon: Canon, id: Id)
    returns (next: map<Id, Tag>, canon': Canon)
    requires Agrees(s) && id in s.tags && Target(n, s, id) in s.tags && Identities(original, s.tags, canon)
    ensures next == Pass(n, s, id).tags && canon' == NextCanon(n, s, canon, id) && Identities(original, next, canon')
  {
    PassByVerdict(n, s, canon, id);
    match Judge(n, s, id)
    case Rename =>
      RenameKeepsIdentities(n, original, s, canon, id);
      next, canon' := Renamed(n, s, id).tags, canon;
    case Merge =>
      MergeKeepsIdentities(n, original, s, canon, id);
      next, canon' := Absorbed(n, s, id).tags, Follow(canon, id, Target(n, s, id));
    case _ =>
      next, canon' := s.tags, canon;
  }

  lemma PassKeepsLinks(n: Naming, original: Links, s: State, canon: Canon, id: Id)
    requires id in s.tags && Target(n, s, id) in s.tags && LinksOf(original, s.links, canon)
    ensures LinksOf(original, Pass(n, s, id).links, NextCanon(n, s, canon, id))
  {
    if Judge(n, s, id) == Merge {
      MergeMovesLinks(original, s.links, canon, id, Target(n, s, id));
    }
  }

  /** In any turn, the target is gone exactly when the new slug is the old slug of a tag that was merged before. */
  lemma TargetIsGoneIff(n: Naming, original: map<Id, Tag>, s: State, rows: seq<Id>)
    requires Agrees(s) && Underway(n, original, s, rows) && rows != [] && rows[0] in s.tags
    ensures Target(n, s, rows[0]) !in s.tags <==>
            exists t :: t in original && t !in s.tags && original[t].slug == NewSlug(n, original[rows[0]])
  {
    assert rows[0] in rows;
    SameNewSlug(n, s.tags[rows[0]], original[rows[0]]);
  }

  /** What the loop knows of the index when it reaches rows[i]. */
  ghost predicate OnTrack(n: Naming, original: map<Id, Tag>, s: State, rows: seq<Id>, i: nat, conflicts: set<Id>)
    requires i <= |rows|
  {
    && Agrees(s) && Underway(n, original, s, rows[i..])
    && Repaired(n, original, s.tags, rows[..i], conflicts)
  }

  lemma StaysOnTrack(n: Naming, original: map<Id, Tag>, s: State, rows: seq<Id>, i: nat, conflicts: set<Id>)
    requires i < |rows| && OnTrack(n, original, s, rows, i, conflicts)
    requires forall j | 0 <= j < i :: rows[j] != rows[i]
    requires rows[i] in s.tags && Target(n, s, rows[i]) in s.tags
    ensures OnTrack(n, original, Pass(n, s, rows[i]), rows, i + 1,
                    if Judge(n, s, rows[i]) == Conflict then conflicts + {rows[i]} else conflicts)
  {
    var id, left, next := rows[i], rows[i..], Pass(n, s, rows[i]);
    assert left[0] == id && left[1..] == rows[i + 1..] && rows[..i + 1] == rows[..i] + [id];
    PassMoves(n, s, id);
    PassKeepsIndex(n, s, id);
    SameNewSlug(n, s.tags[id], original[id]);
    UnderwayGoesOn(n, original, s, next, left, Judge(n, s, id), n.name(original[id].name), NewSlug(n, original[id]));
    RepairGoesOn(n, original, s, next, rows[..i], conflicts, id, Judge(n, s, id));
  }

  datatype Change = Change(id: Id, name: string, slug: string, into: Id)

  /* ---------- the preview ---------- */

  function ChangeOf(n: Naming, s: State, id: Id): Change
    requires id in s.tags && Target(n, s, id) in s.tags
  {
    Change(id, NewName(n, s, id), NewSlug(n, s.tags[id]), Target(n, s, id))
  }

  predicate Known(tags: map<Id, Tag>, rows: seq<Id>) {
    forall i | 0 <= i < |rows| :: rows[i] in tags
  }

  /** The index of a state that nobody has changed yet sends tags to tags. */
  predicate Fresh(s: State) {
    UniqueSlugs(s.tags) && s.bySlug == Indexed(s.tags)
  }

  lemma FreshTargets(n: Naming, s: State, id: Id)
    requires Fresh(s) && id in s.tags
    ensures Target(n, s, id) in s.tags
  {
  }

  /** What a turn reports. */
  function Reported(n: Naming, s: State, id: Id): seq<Change>
    requires id in s.tags && Target(n, s, id) in s.tags
  {
    if Judge(n, s, id) == Same || Judge(n, s, id) == Conflict then [] else [ChangeOf(n, s, id)]
  }

  /** What the preview reports: every tag is judged as things are before the pass. */
  function Previewed(n: Naming, s: State, rows: seq<Id>): seq<Change>
    requires Fresh(s) && Known(s.tags, rows)
  {
    if rows == [] then []
    else
      FreshTargets(n, s, rows[0]);
      Reported(n, s, rows[0]) + Previewed(n, s, rows[1..])
  }

  /** What an applied pass reports, up to a tag that is sent to one that is gone. */
  function Applied(n: Naming, s: State, rows: seq<Id>): seq<Change>
    decreases |rows|
  {
    if rows == [] || rows[0] !in s.tags || Target(n, s, rows[0]) !in s.tags then []
    else Reported(n, s, rows[0]) + Applied(n, Pass(n, s, rows[0]), rows[1..])
  }

  lemma AppliedFrom(n: Naming, s: State, rows: seq<Id>, i: nat)
    requires i < |rows| && rows[i] in s.tags
    ensures Applied(n, s, rows[i..]) == if Target(n, s, rows[i]) !in s.tags then []
                                        else Reported(n, s, rows[i]) + Applied(n, Pass(n, s, rows[i]), rows[i + 1..])
  {
    assert rows[i..][0] == rows[i] && rows[i..][1..] == rows[i + 1..];
  }

  lemma PreviewedFrom(n: Naming, first: State, rows: seq<Id>, i: nat)
    requires Fresh(first) && Known(first.tags, rows) && i < |rows| && Target(n, first, rows[i]) in first.tags
    ensures Previewed(n, first, rows[i..]) == Reported(n, first, rows[i]) + Previewed(n, first, rows[i + 1..])
  {
    assert rows[i..][0] == rows[i] && rows[i..][1..] == rows[i + 1..];
  }

  lemma AppliedGoesOn(n: Naming, s: State, rows: seq<Id>, i: nat, all: seq<Change>, sofar: seq<Change>)
    requires i < |rows| && rows[i] in s.tags && all == sofar + Applied(n, s, rows[i..])
    ensures if Target(n, s, rows[i]) !in s.tags then all == sofar
            else all == sofar + Reported(n, s, rows[i]) + Applied(n, Pass(n, s, rows[i]), rows[i + 1..])
  {
    AppliedFrom(n, s, rows, i);
  }

  lemma PreviewGoesOn(n: Naming, s: State, rows: seq<Id>, i: nat, all: seq<Change>, sofar: seq<Change>)
    requires Fresh(s) && Known(s.tags, rows) && i < |rows| && all == sofar + Previewed(n, s, rows[i..])
    ensures Target(n, s, rows[i]) in s.tags && all == sofar + Reported(n, s, rows[i]) + Previewed(n, s, rows[i + 1..])
  {
    FreshTargets(n, s, rows[i]);
    PreviewedFrom(n, s, rows, i);
  }

  class Session {
    const naming: Naming
    var tags: map<Id, Tag>
    var links: Links
    var bySlug: map<string, Id>

    function View(): State
      reads this
    {
      State(tags, links, bySlug)
    }

    constructor (naming: Naming, tags: map<Id, Tag>, links: Links)
      requires UniqueSlugs(tags)
      ensures this.naming == naming && View() == State(tags, links, Indexed(tags))
    {
      this.naming, this.tags, this.links, this.bySlug := naming, tags, links, Indexed(tags);
    }

    method Decide(id: Id, target: Id) returns (verdict: Verdict, change: Change, aliases: seq<string>)
      requires id in tags && target in tags && target == Target(naming, View(), id)
      ensures verdict == Judge(naming, View(), id)
      ensures change == Change(id, NewName(naming, View(), id), NewSlug(naming, tags[id]), target)
      ensures verdict.Merge? || verdict.Rename? ==> aliases == NewAliases(naming, View(), id)
    {
      var tag := tags[id];
      var name, slug := naming.name(tag.name), NewSlug(naming, tag);
      change, aliases := Change(id, if target == id then name else tags[target].name, slug, target), [];
      if name == tag.name && slug == tag.slug { return Same, change, aliases; }
      if name == "" || (target != id && TopicsDisagree(tag, tags[target])) { return Conflict, change, aliases; }
      aliases := Distinct(tags[target].aliases + tag.aliases + [tag.name, tag.slug], {change.name, slug});
      if |aliases| > MOST_ALIASES { return Conflict, change, aliases; }
      verdict := if target == id then Verdict.Rename else Verdict.Merge;
    }

    method Rename(id: Id, name: string, slug: string, aliases: seq<string>)
      requires id in tags
      modifies `tags, `bySlug
      ensures View() == RenamedTo(old(View()), id, name, slug, aliases)
    {
      bySlug := bySlug - {tags[id].slug};
      tags := tags[id := tags[id].(name := name, slug := slug, aliases := aliases)];
      bySlug := bySlug[slug := id];
    }

    method Absorb(id: Id, target: Id, aliases: seq<string>)
      requires id in tags && target in tags && target != id
      modifies `tags, `links
      ensures View() == AbsorbedBy(old(View()), id, target, aliases)
    {
      var auto := tags[target].auto && tags[id].auto;
      links := MergedLinks(links, id, target);
      tags := (tags - {id})[target := tags[target].(aliases := aliases, auto := auto)];
    }

    /** One turn of the loop. */
    method Turn(id: Id) returns (verdict: Verdict, change: Change)
      requires id in tags && Target(naming, View(), id) in tags
      modifies `tags, `links, `bySlug
      ensures View() == Pass(naming, old(View()), id) && verdict == Judge(naming, old(View()), id)
      ensures change == ChangeOf(naming, old(View()), id)
    {
      var target, aliases := Target(naming, View(), id), [];
      verdict, change, aliases := Decide(id, target);
      match verdict {
        case Rename => Rename(id, change.name, change.slug, aliases);
        case Merge => Absorb(id, target, aliases);
        case _ =>
      }
    }

    /** One turn of the loop, with what the whole pass is about. */
    method TurnAt(rows: seq<Id>, i: nat, conflicts: set<Id>, ghost original: State, ghost canon: Canon)
      returns (change: Option<Change>, next: set<Id>, ghost canon': Canon)
      requires i < |rows| && (forall j | 0 <= j < i :: rows[j] != rows[i])
      requires Progress(naming, original, View(), canon, rows, i, conflicts)
      requires rows[i] in tags && Target(naming, View(), rows[i]) in tags
      modifies `tags, `links, `bySlug
      ensures Progress(naming, original, View(), canon', rows, i + 1, next)
      ensures View() == Pass(naming, old(View()), rows[i])
      ensures (if change.Some? then [change.value] else []) == Reported(naming, old(View()), rows[i])
    {
      ghost var before := View();
      ProgressGoesOn(naming, original, before, canon, rows, i, conflicts);
      canon' := NextCanon(naming, before, canon, rows[i]);
      var verdict, made := Turn(rows[i]);
      change := if verdict.Same? || verdict.Conflict? then None else Some(made);
      next := if verdict.Conflict? then conflicts + {rows[i]} else conflicts;
    }

    method Loop(rows: seq<Id>, ghost original: State, ghost first: Canon)
      returns (done: nat, changes: seq<Change>, conflicts: set<Id>, ghost canon: Canon)
      requires Progress(naming, original, View(), first, rows, 0, {})
      requires forall i, j | 0 <= i < j < |rows| :: rows[i] != rows[j]
      modifies `tags, `links, `bySlug
      ensures done <= |rows| && Progress(naming, original, View(), canon, rows, done, conflicts)
      ensures done == |rows| <==> old(TargetsAlive(naming, View(), rows))
      ensures changes == old(Applied(naming, View(), rows))
      ensures done < |rows| ==> rows[done] in tags && Target(naming, View(), rows[done]) !in tags
    {
      done, changes, conflicts, canon := 0, [], {}, first;
      ghost var all, alive := Applied(naming, View(), rows), TargetsAlive(naming, View(), rows);
      ForetellsAtFirst(naming, View(), rows);
      while done < |rows|
        invariant done <= |rows| && Progress(naming, original, View(), canon, rows, done, conflicts)
        invariant Foretells(naming, View(), rows, done, all, alive, changes)
      {
        ComesInTurn(naming, original, View(), canon, rows, done, conflicts);
        ForetellsOnward(naming, View(), rows, done, all, alive, changes);
        if Target(naming, View(), rows[done]) !in tags { return; }
        var change;
        change, conflicts, canon := TurnAt(rows, done, conflicts, original, canon);
        changes := changes + if change.Some? then [change.value] else [];
        done := done + 1;
      }
    }

    /** One turn of the loop when nothing is applied. */
    method PreviewAt(id: Id) returns (change: Option<Change>, conflict: bool)
      requires Fresh(View()) && id in tags && Target(naming, View(), id) in tags
      ensures (if change.Some? then [change.value] else []) == Reported(naming, View(), id)
      ensures conflict <==> Judge(naming, View(), id) == Conflict
    {
      var verdict, made, aliases := Decide(id, Target(naming, View(), id));
      change := if verdict.Same? || verdict.Conflict? then None else Some(made);
      conflict := verdict.Conflict?;
    }

    /** normalize_tags(apply=False): the tags and the index stay as they are. */
    method Preview(rows: seq<Id>) returns (changes: seq<Change>, conflicts: seq<Id>)
      requires Fresh(View()) && Known(tags, rows)
      ensures changes == Previewed(naming, View(), rows)
      ensures forall id :: id in conflicts <==> id in rows && id in tags && Judge(naming, View(), id) == Conflict
    {
      changes, conflicts := [], [];
      assert rows[0..] == rows;
      ghost var all := Previewed(naming, View(), rows);
      for i := 0 to |rows|
        invariant all == changes + Previewed(naming, View(), rows[i..])
        invariant forall id ::
                    id in conflicts <==> id in rows[..i] && id in tags && Judge(naming, View(), id) == Conflict
      {
        assert rows[..i + 1] == rows[..i] + [rows[i]];
        PreviewGoesOn(naming, View(), rows, i, all, changes);
        var change, conflict := PreviewAt(rows[i]);
        changes := changes + if change.Some? then [change.value] else [];
        conflicts := conflicts + if conflict then [rows[i]] else [];
      }
    }

    /**
     normalize_tags(apply=True), over the tags in the order of their slugs, up to a tag that the index sends to one
     that is gone; it comes to the end exactly when there is no such tag.
     */
    method Normalize(rows: seq<Id>) returns (done: nat, changes: seq<Change>, conflicts: set<Id>, ghost canon: Canon)
      requires UniqueSlugs(tags) && bySlug == Indexed(tags) && Lists(rows, tags)
      requires forall key | key in links :: key.1 in tags
      modifies `tags, `links, `bySlug
      ensures done <= |rows| && Progress(naming, old(View()), View(), canon, rows, done, conflicts)
      ensures done == |rows| <==> old(TargetsAlive(naming, View(), rows))
      ensures changes == old(Applied(naming, View(), rows))
      ensures done < |rows| ==> rows[done] in tags && Target(naming, View(), rows[done]) !in tags
    {
      ghost var first := map t | t in tags :: t;
      Beginning(naming, View(), rows, first);
      done, changes, conflicts, canon := Loop(rows, View(), first);
    }
  }

  ghost predicate Progress(n: Naming, original: State, s: State, canon: Canon, rows: seq<Id>, i: nat,
                           conflicts: set<Id>)
    requires i <= |rows|
  {
    && OnTrack(n, original.tags, s, rows, i, conflicts)
    && Identities(original.tags, s.tags, canon) && LinksOf(original.links, s.links, canon)
  }

  /** What is reported so far, and what the rest of the pass will come to. */
  ghost predicate Foretells(n: Naming, s: State, rows: seq<Id>, i: nat, all: seq<Change>, alive: bool,
                            sofar: seq<Change>)
    requires i <= |rows|
  {
    all == sofar + Applied(n, s, rows[i..]) && (alive <==> TargetsAlive(n, s, rows[i..]))
  }

  lemma ForetellsOnward(n: Naming, s: State, rows: seq<Id>, i: nat, all: seq<Change>, alive: bool, sofar: seq<Change>)
    requires i < |rows| && rows[i] in s.tags && Foretells(n, s, rows, i, all, alive, sofar)
    ensures if Target(n, s, rows[i]) !in s.tags then all == sofar && !alive
            else Foretells(n, Pass(n, s, rows[i]), rows, i + 1, all, alive, sofar + Reported(n, s, rows[i]))
  {
    AliveFromHere(n, s, rows, i);
    AppliedGoesOn(n, s, rows, i, all, sofar);
  }

  lemma ForetellsAtFirst(n: Naming, s: State, rows: seq<Id>)
    ensures Foretells(n, s, rows, 0, Applied(n, s, rows), TargetsAlive(n, s, rows), [])
  {
    assert rows[0..] == rows;
  }

  lemma ComesInTurn(n: Naming, original: State, s: State, canon: Canon, rows: seq<Id>, i: nat, conflicts: set<Id>)
    requires i < |rows| && Progress(n, original, s, canon, rows, i, conflicts)
    ensures rows[i] in s.tags
  {
    assert rows[i..][0] == rows[i];
  }

  lemma ProgressGoesOn(n: Naming, original: State, s: State, canon: Canon, rows: seq<Id>, i: nat, conflicts: set<Id>)
    requires i < |rows| && (forall j | 0 <= j < i :: rows[j] != rows[i])
    requires Progress(n, original, s, canon, rows, i, conflicts)
    requires rows[i] in s.tags && Target(n, s, rows[i]) in s.tags
    ensures Progress(n, original, Pass(n, s, rows[i]), NextCanon(n, s, canon, rows[i]), rows, i + 1,
                     if Judge(n, s, rows[i]) == Conflict then conflicts + {rows[i]} else conflicts)
  {
    StaysOnTrack(n, original.tags, s, rows, i, conflicts);
    var next, canon' := PassKeepsIdentities(n, original.tags, s, canon, rows[i]);
    PassKeepsLinks(n, original.links, s, canon, rows[i]);
  }

  lemma Beginning(n: Naming, s: State, rows: seq<Id>, canon: Canon)
    requires UniqueSlugs(s.tags) && s.bySlug == Indexed(s.tags) && Lists(rows, s.tags)
    requires forall key | key in s.links :: key.1 in s.tags
    requires canon.Keys == s.tags.Keys && forall t | t in canon :: canon[t] == t
    ensures Progress(n, s, s, canon, rows, 0, {})
  {
    FreshIndexAgrees(s);
    OnTrackAtFirst(n, s, rows);
    OwnIdentities(s.tags, canon);
    OwnLinks(s.links, canon);
  }

  /** The result of a pass: slugs are unique, every tag is repaired or reported, nothing absorbed is lost. */
  lemma WhatAPassLeaves(n: Naming, original: State, s: State, canon: Canon, rows: seq<Id>, conflicts: set<Id>)
    requires Lists(rows, original.tags) && Progress(n, original, s, canon, rows, |rows|, conflicts)
    ensures UniqueSlugs(s.tags)
    ensures forall t | t in s.tags && t !in conflicts :: t in original.tags
              && s.tags[t].name == n.name(original.tags[t].name) && s.tags[t].slug == NewSlug(n, original.tags[t])
    ensures forall t | t in original.tags ::
              t in canon && canon[t] in s.tags && Represents(original.tags[t], s.tags[canon[t]])
    ensures forall a, u | (a, u) in s.links :: u in s.tags
  {
    assert rows[..|rows|] == rows;
    forall a, u | (a, u) in s.links ensures u in s.tags {
      var t :| t in canon && canon[t] == u && (a, t) in original.links && original.links[(a, t)] == s.links[(a, u)];
    }
  }

  lemma FreshIndexAgrees(s: State)
    requires UniqueSlugs(s.tags) && s.bySlug == Indexed(s.tags)
    ensures Agrees(s) && forall slug | slug in s.bySlug :: s.bySlug[slug] in s.tags
  {
  }

  /** A caller can check on the tags alone that a pass will not be misled by a merged tag. */
  lemma UndisturbedIsEnough(n: Naming, s: State, rows: seq<Id>)
    requires UniqueSlugs(s.tags) && s.bySlug == Indexed(s.tags) && Lists(rows, s.tags) && Undisturbed(n, s.tags)
    ensures TargetsAlive(n, s, rows)
  {
    FreshIndexAgrees(s);
    UndisturbedTagsStayAlive(n, s.tags, s, rows);
  }

  lemma OnTrackAtFirst(n: Naming, s: State, rows: seq<Id>)
    requires Agrees(s) && (forall slug | slug in s.bySlug :: s.bySlug[slug] in s.tags)
    requires Lists(rows, s.tags)
    ensures OnTrack(n, s.tags, s, rows, 0, {})
  {
    assert rows[0..] == rows;
  }

  lemma OwnIdentities(tags: map<Id, Tag>, canon: Canon)
    requires canon.Keys == tags.Keys && forall t | t in canon :: canon[t] == t
    ensures Identities(tags, tags, canon)
  {
  }

  lemma OwnLinks(links: Links, canon: Canon)
    requires (forall key | key in links :: key.1 in canon) && forall t | t in canon :: canon[t] == t
    ensures LinksOf(links, links, canon)
  {
    forall a, u | (a, u) in links
      ensures exists t :: t in canon && canon[t] == u && (a, t) in links && links[(a, t)] == links[(a, u)]
    {
      assert u in canon && canon[u] == u;
    }
  }
}
