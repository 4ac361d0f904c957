/**
 Columns that search documents read (packages/core/src/search_records.py:92-112, 233-271) and no trigger captures: when
 a document goes stale with nothing left to do for it.
 */
module UncapturedColumns {
  import opened Options
  import opened SearchOutbox

  /** What the title of an article document is rendered from. */
  function Title(row: Row): Option<string> {
    if Get(row, "ai_title").Some? then Get(row, "ai_title") else Get(row, "title")
  }

  /** What an article document shows of columns that are not captured: its title and its content type. */
  datatype Shown = Shown(title: Option<string>, contentType: string)

  function ShownOf(row: Row): Shown {
    Shown(Title(row), Get(row, "content_type").GetOr("article"))
  }

  /** The article has a document: it is published, approved, and from an approved source. */
  predicate Visible(db: Db, a: Id) {
    && a in db.articles
    && Get(db.articles[a], "publication_status") == Some("published")
    && Get(db.articles[a], "review_status") == Some("approved")
    && exists link :: link in db.links && FromApproved(db, a, link)
  }

  predicate FromApproved(db: Db, a: Id, link: Link) {
    && link.article == a && link.entity.kind == Sources && link.entity in db.entities
    && Get(db.entities[link.entity], "approval_status") == Some("approved")
  }

  /** There is a document of this article, and it shows something its row no longer says. */
  ghost predicate ShowsOther(s: State, a: Id) {
    && a in s.db.articles && Visible(BuiltFrom(s, Article(a)), a)
    && ShownOf(BuiltFrom(s, Article(a)).articles[a]) != ShownOf(s.db.articles[a])
  }

  /**
   When an update of an up-to-date article leaves its document behind with nothing pending: exactly when no captured
   column changed and the title or the content type that the document shows did.
   */
  lemma GoesStaleUnnoticedIff(s: State, a: Id, row: Row, added: set<Event>, size: nat)
    requires s.events == {} && a in s.db.articles && Visible(BuiltFrom(s, Article(a)), a) && !ShowsOther(s, a)
    requires Enabled(s, Writes(SetArticle(a, Some(row)), added), size)
    ensures var t := Next(s, Writes(SetArticle(a, Some(row)), added), size);
            t.events == {} && ShowsOther(t, a) <==>
            (forall c | c in ARTICLE_COLUMNS :: Get(s.db.articles[a], c) == Get(row, c))
              && ShownOf(row) != ShownOf(s.db.articles[a])
  {
    var t := Next(s, Writes(SetArticle(a, Some(row)), added), size);
    UncapturedUpdateIsSilent(s.db, a, row);
    assert t.db.articles[a] == row && BuiltFrom(t, Article(a)) == BuiltFrom(s, Article(a));
    var n := Notice(Article(a), false, None);
    if Notices(s.db, SetArticle(a, Some(row))) == {} {
      assert added == {};
    } else {
      assert n in Notices(s.db, SetArticle(a, Some(row)));
      var ev :| ev in added && ev.notice == n;
      assert ev in t.events;
    }
  }

  /** Nothing is left to do for such a document, and it stays behind until a captured change or one of its own row. */
  lemma {:induction false} StaysStale(states: seq<State>, steps: seq<Step>, size: nat, i: nat, j: nat, a: Id)
    requires Run(states, steps, size) && i <= j < |states| && states[i].events == {} && states[i].work.Idle?
    requires ShowsOther(states[i], a)
    requires forall k | i <= k < j && steps[k].Writes? ::
               Notices(states[k].db, steps[k].w) == {} && !(steps[k].w.SetArticle? && steps[k].w.a == a)
    ensures states[j].events == {} && states[j].work.Idle? && ShowsOther(states[j], a)
    ensures !Covered(states[j].events, states[j].db, Article(a))
    decreases j
  {
    if i < j {
      StaysStale(states, steps, size, i, j - 1, a);
      var s, step := states[j - 1], steps[j - 1];
      assert Enabled(s, step, size) && states[j - 1 + 1] == Next(s, step, size);
      StepStaysStale(s, step, size, a);
    }
  }

  lemma StepStaysStale(s: State, step: Step, size: nat, a: Id)
    requires Enabled(s, step, size) && s.events == {} && s.work.Idle? && ShowsOther(s, a)
    requires step.Writes? ==> Notices(s.db, step.w) == {} && !(step.w.SetArticle? && step.w.a == a)
    ensures var t := Next(s, step, size);
            t.events == {} && t.work.Idle? && ShowsOther(t, a) && !Covered(t.events, t.db, Article(a))
  {
    assert step.Writes? && step.added == {};
    assert BuiltFrom(Next(s, step, size), Article(a)) == BuiltFrom(s, Article(a));
  }

  /* ---------- such a run ---------- */

  /** A published article from an approved source, before and after its title is rewritten. */
  const TITLED: Row := map["title" := "A", "slug" := "a", "summary" := "", "feed_at" := "2026-01-01",
                            "publication_status" := "published", "review_status" := "approved"]
  const RETITLED: Row := TITLED["ai_title" := "B"]
  const SOURCE := Entity(Sources, 1)
  const ORIGIN := Link(1, SOURCE, 1)

  function Published(row: Row): Db {
    Db(map[1 := row], map[SOURCE := map["name" := "S", "approval_status" := "approved", "enabled" := "true"]],
       map[ORIGIN := map[]])
  }

  function Direction(id: nat, document: Document): Event {
    Event(id, Notice(document, false, None))
  }

  lemma PublishedIsVisible(row: Row)
    requires row == TITLED || row == RETITLED
    ensures Visible(Published(row), 1)
  {
    assert ORIGIN in Published(row).links && FromApproved(Published(row), 1, ORIGIN);
  }

  lemma OnlyDestination(row: Row)
    ensures Destinations(Published(row), 1) == {SOURCE}
  {
    assert ORIGIN in Published(row).links;
  }

  lemma RunOneMore(states: seq<State>, steps: seq<Step>, s: State, step: Step, t: State, size: nat)
    returns (states': seq<State>, steps': seq<Step>)
    requires Run(states, steps, size) && s == states[|states| - 1] && Enabled(s, step, size) && t == Next(s, step, size)
    ensures states' == states + [t] && steps' == steps + [step] && Run(states', steps', size)
  {
    states', steps' := states + [t], steps + [step];
    forall i | 0 <= i < |steps'|
      ensures Enabled(states'[i], steps'[i], size) && states'[i + 1] == Next(states'[i], steps'[i], size)
    {
      if i < |steps| {
        assert states'[i] == states[i] && states'[i + 1] == states[i + 1] && steps'[i] == steps[i];
      }
    }
  }

  /** The oldest event asks for this document. */
  ghost predicate Oldest(s: State, ev: Event, document: Document) {
    && s.work.Idle? && ev in s.events && ev == Direction(ev.id, document)
    && forall x | x in s.events && x != ev :: ev.id < x.id
  }

  function Selected(s: State, ev: Event): State {
    s.(work := Busy({ev}, map[], {}, map[], map[]))
  }

  function Rendered(s: State, ev: Event, document: Document): State {
    s.(work := Busy({ev}, map[document := s.db], {}, map[], map[]))
  }

  function Imported(s: State, ev: Event, document: Document): State {
    s.(index := s.index[document := s.db], work := Busy({ev}, map[document := s.db], {document}, map[], map[]))
  }

  lemma BatchSteps(s: State, ev: Event, document: Document)
    requires Oldest(s, ev, document)
    ensures Enabled(s, Begin({ev}), 1) && Next(s, Begin({ev}), 1) == Selected(s, ev)
    ensures Enabled(Selected(s, ev), Build(document), 1)
    ensures Next(Selected(s, ev), Build(document), 1) == Rendered(s, ev, document)
    ensures Enabled(Rendered(s, ev, document), Import(document), 1)
    ensures Next(Rendered(s, ev, document), Import(document), 1) == Imported(s, ev, document)
  {
    assert ev in Selected(s, ev).work.batch && Direct(Selected(s, ev).work.batch, document);
    assert map[][document := s.db] == map[document := s.db] && {} + {document} == {document};
  }

  /** The event is selected alone, and its document is rendered and imported. */
  lemma ImportOne(states: seq<State>, steps: seq<Step>, s: State, ev: Event, document: Document)
    returns (states': seq<State>, steps': seq<Step>)
    requires Run(states, steps, 1) && s == states[|states| - 1] && Oldest(s, ev, document)
    ensures Run(states', steps', 1) && states'[|states'| - 1] == Imported(s, ev, document)
  {
    BatchSteps(s, ev, document);
    states', steps' := RunOneMore(states, steps, s, Begin({ev}), Selected(s, ev), 1);
    states', steps' := RunOneMore(states', steps', Selected(s, ev), Build(document), Rendered(s, ev, document), 1);
    states', steps' :=
      RunOneMore(states', steps', Rendered(s, ev, document), Import(document), Imported(s, ev, document), 1);
  }

  lemma CatalogCommit(s: State, ev: Event, e: Entity)
    requires Oldest(s, ev, Catalog(e))
    ensures var b := Imported(s, ev, Catalog(e));
            Enabled(b, Commit({}, map[]), 1)
            && Next(b, Commit({}, map[]), 1) == s.(events := s.events - {ev}, index := s.index[Catalog(e) := s.db])
  {
    var b := Imported(s, ev, Catalog(e));
    forall n ensures !LeftBehind(b.work, n) {
    }
    forall c ensures !Fans(b.work.batch, c) {
    }
    assert s.events - {ev} + {} == s.events - {ev};
  }

  /** A batch of one catalogue event, from its selection to its acknowledgement. */
  lemma CatalogBatch(states: seq<State>, steps: seq<Step>, s: State, ev: Event, e: Entity)
    returns (states': seq<State>, steps': seq<Step>)
    requires Run(states, steps, 1) && s == states[|states| - 1] && Oldest(s, ev, Catalog(e))
    ensures Run(states', steps', 1)
    ensures states'[|states'| - 1] == s.(events := s.events - {ev}, index := s.index[Catalog(e) := s.db])
  {
    states', steps' := ImportOne(states, steps, s, ev, Catalog(e));
    CatalogCommit(s, ev, e);
    states', steps' := RunOneMore(states', steps', Imported(s, ev, Catalog(e)), Commit({}, map[]),
                                  s.(events := s.events - {ev}, index := s.index[Catalog(e) := s.db]), 1);
  }

  function Resolved(s: State, ev: Event, a: Id, e: Entity): State {
    var b := Imported(s, ev, Article(a));
    b.(work := b.work.(destinations := map[a := {e}]))
  }

  lemma ArticleCommit(s: State, ev: Event, a: Id, e: Entity, more: Event)
    requires Oldest(s, ev, Article(a)) && Destinations(s.db, a) == {e}
    requires more == Direction(more.id, Catalog(e)) && forall x | x in s.events :: x.id < more.id
    ensures var b := Imported(s, ev, Article(a)); var c := Resolved(s, ev, a, e);
            && Enabled(b, ReadDestinations(a), 1) && Next(b, ReadDestinations(a), 1) == c
            && Enabled(c, Commit({more}, map[]), 1)
            && Next(c, Commit({more}, map[]), 1)
                 == s.(events := s.events - {ev} + {more}, index := s.index[Article(a) := s.db])
  {
    var b, c := Imported(s, ev, Article(a)), Resolved(s, ev, a, e);
    assert ev in b.work.batch && Direct(b.work.batch, Article(a));
    forall n ensures LeftBehind(c.work, n) <==> n == more.notice {
      assert a in c.work.destinations && e in c.work.destinations[a];
    }
    forall d ensures !Fans(c.work.batch, d) {
    }
    assert more in {more};
  }

  /** A batch of one article event; the entity the article leads to gets an event. */
  lemma ArticleBatch(states: seq<State>, steps: seq<Step>, s: State, ev: Event, a: Id, e: Entity, more: Event)
    returns (states': seq<State>, steps': seq<Step>)
    requires Run(states, steps, 1) && s == states[|states| - 1]
    requires Oldest(s, ev, Article(a)) && Destinations(s.db, a) == {e}
    requires more == Direction(more.id, Catalog(e)) && forall x | x in s.events :: x.id < more.id
    ensures Run(states', steps', 1)
    ensures states'[|states'| - 1] == s.(events := s.events - {ev} + {more}, index := s.index[Article(a) := s.db])
  {
    states', steps' := ImportOne(states, steps, s, ev, Article(a));
    ArticleCommit(s, ev, a, e, more);
    states', steps' :=
      RunOneMore(states', steps', Imported(s, ev, Article(a)), ReadDestinations(a), Resolved(s, ev, a, e), 1);
    states', steps' := RunOneMore(states', steps', Resolved(s, ev, a, e), Commit({more}, map[]),
                                  s.(events := s.events - {ev} + {more}, index := s.index[Article(a) := s.db]), 1);
  }

  /** The outbox the migration leaves for the article and its source. */
  function Migrated(): State {
    State(Published(TITLED), {Direction(0, Article(1)), Direction(1, Catalog(SOURCE))}, map[], Idle)
  }

  lemma MigratedIsInitial()
    ensures Initial(Migrated())
  {
    var s := Migrated();
    assert Direction(0, Article(1)) in s.events && Direction(1, Catalog(SOURCE)) in s.events;
    assert Direct(s.events, Article(1)) && Direct(s.events, Catalog(SOURCE));
  }

  /** The article and its source are indexed, and the outbox is empty. */
  lemma PublishedIsIndexed() returns (states: seq<State>, steps: seq<Step>)
    ensures Run(states, steps, 1)
    ensures var s := states[|states| - 1];
            s.events == {} && s.work.Idle? && s.db == Published(TITLED) && BuiltFrom(s, Article(1)) == Published(TITLED)
  {
    var db := Published(TITLED);
    var article, source, again :=
      Direction(0, Article(1)), Direction(1, Catalog(SOURCE)), Direction(2, Catalog(SOURCE));
    states, steps := [Migrated()], [];
    MigratedIsInitial();
    OnlyDestination(TITLED);
    states, steps := ArticleBatch(states, steps, Migrated(), article, 1, SOURCE, again);
    var s1 := State(db, {source, again}, map[Article(1) := db], Idle);
    assert Migrated().events - {article} + {again} == {source, again};
    states, steps := CatalogBatch(states, steps, s1, source, SOURCE);
    var s2 := State(db, {again}, map[Article(1) := db, Catalog(SOURCE) := db], Idle);
    assert s1.events - {source} == {again};
    states, steps := CatalogBatch(states, steps, s2, again, SOURCE);
    assert s2.events - {again} == {};
  }

  lemma RetitlingIsSilent()
    ensures forall c | c in ARTICLE_COLUMNS :: Get(TITLED, c) == Get(RETITLED, c)
    ensures Title(TITLED) == Some("A") && Title(RETITLED) == Some("B")
    ensures After(Published(TITLED), SetArticle(1, Some(RETITLED))) == Published(RETITLED)
  {
    assert "ai_title" !in ARTICLE_COLUMNS;
    assert map[1 := TITLED][1 := RETITLED] == map[1 := RETITLED];
  }

  /** From the initial state to an empty outbox and a visible document that keeps a title its row has lost. */
  lemma RewrittenTitleStaysStale() returns (states: seq<State>, steps: seq<Step>)
    ensures Run(states, steps, 1)
    ensures var s := states[|states| - 1];
            && s.events == {} && s.work.Idle? && Visible(s.db, 1) && ShowsOther(s, 1)
            && Title(s.db.articles[1]) == Some("B") && Title(BuiltFrom(s, Article(1)).articles[1]) == Some("A")
  {
    states, steps := PublishedIsIndexed();
    var s := states[|states| - 1];
    PublishedIsVisible(TITLED);
    PublishedIsVisible(RETITLED);
    RetitlingIsSilent();
    UncapturedUpdateIsSilent(s.db, 1, RETITLED);
    var t := s.(db := Published(RETITLED));
    states, steps := RunOneMore(states, steps, s, Writes(SetArticle(1, Some(RETITLED)), {}), t, 1);
  }
}
