/**
 The search outbox: the row triggers of migrations/versions/0003_search_outbox.py write events,
 and the indexer of packages/core/src/search_index.py drains them in batches while writers go on.

 A search document is rebuilt from current rows. Which rows it reads is fixed by `SameInputs`; the
 index therefore remembers, for each document, the database it was last built from, and a document
 is current when its inputs there and now agree.
 */
module SearchOutbox {
  import opened Options

  type Id = nat
  datatype Kind = Sources | Topics | Tags
  datatype Entity = Entity(kind: Kind, id: Id)

  /** A link row. A source can hold several for one article, each under its own number; topics and tags hold one. */
  datatype Link = Link(article: Id, entity: Entity, number: nat)

  /** Column values; an absent column is NULL. */
  type Row = map<string, string>

  datatype Db = Db(articles: map<Id, Row>, entities: map<Entity, Row>, links: map<Link, Row>)
  const EMPTY := Db(map[], map[], map[])

  datatype Document = Article(id: Id) | Catalog(entity: Entity)

  /** An outbox row: a document to rebuild and, for a fanout, where its paging has got to. */
  datatype Notice = Notice(document: Document, fanout: bool, after: Option<Id>)
  datatype Event = Event(id: nat, notice: Notice)

  /** The captured columns, in the order the trigger compares them. */
  const ARTICLE_COLUMNS := ["title", "slug", "summary", "ai_summary", "ai_description", "author",
                            "publication_status", "review_status", "feed_at"]

  function EntityColumns(kind: Kind): seq<string> {
    match kind
    case Topics => ["name", "slug", "description", "ai_description", "aliases", "keywords", "status"]
    case Sources => ["name", "description", "website_url", "feed_url", "approval_status", "enabled"]
    case Tags => ["name", "slug", "aliases"]
  }

  /* ---------- what a document is built from ---------- */

  function Get<K, V>(m: map<K, V>, k: K): Option<V> {
    if k in m then Some(m[k]) else None
  }

  function Put<K, V>(m: map<K, V>, k: K, v: Option<V>): map<K, V> {
    if v.Some? then m[k := v.value] else map j | j in m && j != k :: m[j]
  }

  /** The captured part of a row. */
  function Seen(columns: seq<string>, row: Option<Row>): Option<Row> {
    if row.None? then None else Some(map c | c in row.value && c in columns :: row.value[c])
  }

  function SeenArticle(db: Db, a: Id): Option<Row> {
    Seen(ARTICLE_COLUMNS, Get(db.articles, a))
  }

  function SeenEntity(db: Db, e: Entity): Option<Row> {
    Seen(EntityColumns(e.kind), Get(db.entities, e))
  }

  /** The link rows between an article and an entity, by their numbers. */
  function LinkRows(links: map<Link, Row>, a: Id, e: Entity): map<nat, Row> {
    map link | link in links && link.article == a && link.entity == e :: link.number := links[link]
  }

  predicate Linked(db: Db, a: Id, e: Entity) {
    LinkRows(db.links, a, e) != map[]
  }

  lemma LinkedByRow(db: Db, link: Link)
    requires link in db.links
    ensures Linked(db, link.article, link.entity)
  {
    assert link.number in LinkRows(db.links, link.article, link.entity);
  }

  lemma RowOfLinked(db: Db, a: Id, e: Entity) returns (link: Link)
    requires Linked(db, a, e)
    ensures link in db.links && link.article == a && link.entity == e
  {
    var n :| n in LinkRows(db.links, a, e);
    link := Link(a, e, n);
  }

  /** An article document reads its row, its links and the rows they lead to. */
  ghost predicate SameArticle(was: Db, now: Db, a: Id) {
    && SeenArticle(was, a) == SeenArticle(now, a)
    && forall e :: LinkRows(was.links, a, e) == LinkRows(now.links, a, e)
                   && (Linked(now, a, e) ==> SeenEntity(was, e) == SeenEntity(now, e))
  }

  /** A catalogue document reads its row, its links and, for visibility, everything its articles read. */
  ghost predicate SameCatalog(was: Db, now: Db, e: Entity) {
    && SeenEntity(was, e) == SeenEntity(now, e)
    && forall a ::
         LinkRows(was.links, a, e) == LinkRows(now.links, a, e) && (Linked(now, a, e) ==> SameArticle(was, now, a))
  }

  ghost predicate SameInputs(was: Db, now: Db, document: Document) {
    match document
    case Article(a) => SameArticle(was, now, a)
    case Catalog(e) => SameCatalog(was, now, e)
  }

  /* ---------- which pending work will rebuild a document ---------- */

  predicate Beyond(after: Option<Id>, a: Id) {
    after.None? || after.value < a
  }

  ghost predicate Direct(events: set<Event>, document: Document) {
    exists ev | ev in events :: ev.notice.document == document
  }

  ghost predicate FansOutTo(events: set<Event>, e: Entity, a: Id) {
    exists ev | ev in events :: ev.notice.document == Catalog(e) && ev.notice.fanout && Beyond(ev.notice.after, a)
  }

  ghost predicate CoveredArticle(events: set<Event>, db: Db, a: Id) {
    Direct(events, Article(a)) || exists e :: Linked(db, a, e) && FansOutTo(events, e, a)
  }

  /** A direct event, a fanout that has not yet passed the article, or such work on a linked article. */
  ghost predicate Covered(events: set<Event>, db: Db, document: Document) {
    match document
    case Article(a) => CoveredArticle(events, db, a)
    case Catalog(e) => Direct(events, document) || exists a :: Linked(db, a, e) && CoveredArticle(events, db, a)
  }

  ghost predicate Pending(events: set<Event>, db: Db, was: Db, document: Document) {
    SameInputs(was, db, document) || Covered(events, db, document)
  }

  lemma CoveredArticleGrows(few: set<Event>, many: set<Event>, db: Db, a: Id)
    requires few <= many && CoveredArticle(few, db, a)
    ensures CoveredArticle(many, db, a)
  {
    if !Direct(few, Article(a)) {
      var e :| Linked(db, a, e) && FansOutTo(few, e, a);
      assert FansOutTo(many, e, a);
    }
  }

  lemma PendingGrows(few: set<Event>, many: set<Event>, db: Db, was: Db, document: Document)
    requires few <= many && Pending(few, db, was, document)
    ensures Pending(many, db, was, document)
  {
    if Covered(few, db, document) {
      if document.Article? {
        CoveredArticleGrows(few, many, db, document.id);
      } else if !Direct(few, document) {
        var a :| Linked(db, a, document.entity) && CoveredArticle(few, db, a);
        CoveredArticleGrows(few, many, db, a);
      }
    }
  }

  /* ---------- writers ---------- */

  /** One row change; None deletes. Statements, cascades and moved links are runs of these. */
  datatype Write =
    | SetArticle(a: Id, row: Option<Row>)
    | SetEntity(e: Entity, row: Option<Row>)
    | SetLink(link: Link, row: Option<Row>)

  function After(db: Db, w: Write): Db {
    match w
    case SetArticle(a, row) => db.(articles := Put(db.articles, a, row))
    case SetEntity(e, row) => db.(entities := Put(db.entities, e, row))
    case SetLink(link, row) => db.(links := Put(db.links, link, row))
  }

  /** Inserts and deletes are always captured, updates when a searched column differs. */
  predicate Captured(columns: seq<string>, was: Option<Row>, now: Option<Row>) {
    if was.Some? && now.Some? then Seen(columns, was) != Seen(columns, now) else was != now
  }

  /** The outbox rows written by the triggers of one row change. */
  function Notices(db: Db, w: Write): set<Notice> {
    match w
    case SetArticle(a, row) =>
      if Captured(ARTICLE_COLUMNS, Get(db.articles, a), row)
      then {Notice(Article(a), false, None)}
           + (set link | link in db.links && link.article == a :: Notice(Catalog(link.entity), false, None))
      else {}
    case SetEntity(e, row) =>
      if Captured(EntityColumns(e.kind), Get(db.entities, e), row) then {Notice(Catalog(e), true, None)} else {}
    case SetLink(link, row) =>
      if Get(db.links, link).Some? || row.Some?
      then {Notice(Article(link.article), false, None), Notice(Catalog(link.entity), false, None)}
      else {}
  }

  ghost predicate Wrote(notices: set<Notice>, events: set<Event>) {
    && (forall n | n in notices :: exists ev | ev in events :: ev.notice == n)
    && (forall ev | ev in events :: ev.notice in notices)
  }

  lemma WroteDirect(notices: set<Notice>, events: set<Event>, n: Notice)
    requires Wrote(notices, events) && n in notices
    ensures Direct(events, n.document)
  {
  }

  lemma AfterSetArticle(events: set<Event>, added: set<Event>, db: Db, was: Db, document: Document, a: Id,
                        row: Option<Row>)
    requires Wrote(Notices(db, SetArticle(a, row)), added) && Pending(events, db, was, document)
    ensures Pending(events + added, After(db, SetArticle(a, row)), was, document)
  {
    var now := After(db, SetArticle(a, row));
    forall e ensures SeenEntity(now, e) == SeenEntity(db, e) {
    }
    forall x | x != a ensures SeenArticle(now, x) == SeenArticle(db, x) {
    }
    PendingGrows(events, events + added, db, was, document);
    if !Captured(ARTICLE_COLUMNS, Get(db.articles, a), row) {
      assert SeenArticle(now, a) == SeenArticle(db, a);
      SameRowsKeepPending(events + added, db, now, was, document);
    } else if document == Article(a) {
      WroteDirect(Notices(db, SetArticle(a, row)), added, Notice(Article(a), false, None));
    } else if document.Catalog? && Linked(db, a, document.entity) {
      var link := RowOfLinked(db, a, document.entity);
      WroteDirect(Notices(db, SetArticle(a, row)), added, Notice(document, false, None));
    } else {
      OtherRowsKeepPending(events + added, db, now, was, document, a);
    }
  }

  lemma CoverFollowsLinks(events: set<Event>, db: Db, now: Db, document: Document)
    requires db.links == now.links && Covered(events, db, document)
    ensures Covered(events, now, document)
  {
    forall a | CoveredArticle(events, db, a) ensures CoveredArticle(events, now, a) {
      if !Direct(events, Article(a)) {
        var x :| Linked(db, a, x) && FansOutTo(events, x, a);
        assert Linked(now, a, x);
      }
    }
    if document.Catalog? && !Direct(events, document) {
      var a :| Linked(db, a, document.entity) && CoveredArticle(events, db, a);
      assert Linked(now, a, document.entity);
    }
  }

  lemma SameRowsKeepPending(events: set<Event>, db: Db, now: Db, was: Db, document: Document)
    requires db.links == now.links
    requires forall x :: SeenArticle(now, x) == SeenArticle(db, x)
    requires forall e :: SeenEntity(now, e) == SeenEntity(db, e)
    requires Pending(events, db, was, document)
    ensures Pending(events, now, was, document)
  {
    forall x ensures SameArticle(was, db, x) == SameArticle(was, now, x) {
    }
    if Covered(events, db, document) {
      CoverFollowsLinks(events, db, now, document);
    }
  }

  lemma OtherRowsKeepPending(events: set<Event>, db: Db, now: Db, was: Db, document: Document, a: Id)
    requires db.links == now.links
    requires forall x | x != a :: SeenArticle(now, x) == SeenArticle(db, x)
    requires forall e :: SeenEntity(now, e) == SeenEntity(db, e)
    requires document != Article(a) && (document.Catalog? ==> !Linked(db, a, document.entity))
    requires Pending(events, db, was, document)
    ensures Pending(events, now, was, document)
  {
    forall x | x != a ensures SameArticle(was, db, x) == SameArticle(was, now, x) {
    }
    if Covered(events, db, document) {
      CoverFollowsLinks(events, db, now, document);
    }
  }

  lemma AfterSetEntity(events: set<Event>, added: set<Event>, db: Db, was: Db, document: Document, e: Entity,
                       row: Option<Row>)
    requires Wrote(Notices(db, SetEntity(e, row)), added) && Pending(events, db, was, document)
    ensures Pending(events + added, After(db, SetEntity(e, row)), was, document)
  {
    var now := After(db, SetEntity(e, row));
    forall x | x != e ensures SeenEntity(now, x) == SeenEntity(db, x) {
    }
    PendingGrows(events, events + added, db, was, document);
    if !Captured(EntityColumns(e.kind), Get(db.entities, e), row) {
      assert SeenEntity(now, e) == SeenEntity(db, e);
      SameRowsKeepPending(events + added, db, now, was, document);
    } else {
      var n := Notice(Catalog(e), true, None);
      assert n in Notices(db, SetEntity(e, row));
      var ev :| ev in added && ev.notice == n;
      forall a ensures FansOutTo(events + added, e, a) {
        assert ev in events + added;
      }
      if document == Catalog(e) {
        WroteDirect(Notices(db, SetEntity(e, row)), added, n);
      } else {
        FanoutKeepsPending(events + added, db, now, was, document, e);
      }
    }
  }

  lemma FanoutKeepsPending(events: set<Event>, db: Db, now: Db, was: Db, document: Document, e: Entity)
    requires db.links == now.links && db.articles == now.articles
    requires forall x | x != e :: SeenEntity(now, x) == SeenEntity(db, x)
    requires forall a :: FansOutTo(events, e, a)
    requires document != Catalog(e) && Pending(events, db, was, document)
    ensures Pending(events, now, was, document)
  {
    forall a | Linked(now, a, e) ensures CoveredArticle(events, now, a) {
    }
    forall a | !Linked(now, a, e) && SameArticle(was, db, a) ensures SameArticle(was, now, a) {
    }
    forall a | CoveredArticle(events, db, a) ensures CoveredArticle(events, now, a) {
      if !Direct(events, Article(a)) {
        var x :| Linked(db, a, x) && FansOutTo(events, x, a);
        assert Linked(now, a, x);
      }
    }
    if document.Catalog? && SameCatalog(was, db, document.entity) {
      if a :| Linked(now, a, document.entity) && Linked(now, a, e) {
        assert CoveredArticle(events, now, a);
      }
    }
  }

  lemma AfterSetLink(events: set<Event>, added: set<Event>, db: Db, was: Db, document: Document, link: Link,
                     row: Option<Row>)
    requires Wrote(Notices(db, SetLink(link, row)), added) && Pending(events, db, was, document)
    ensures Pending(events + added, After(db, SetLink(link, row)), was, document)
  {
    var now := After(db, SetLink(link, row));
    PendingGrows(events, events + added, db, was, document);
    if Get(db.links, link).None? && row.None? {
      assert now == db;
    } else {
      WroteDirect(Notices(db, SetLink(link, row)), added, Notice(Article(link.article), false, None));
      WroteDirect(Notices(db, SetLink(link, row)), added, Notice(Catalog(link.entity), false, None));
      assert Direct(events + added, Article(link.article)) && Direct(events + added, Catalog(link.entity));
      LinkKeepsPending(events + added, db, now, was, document, link);
    }
  }

  lemma LinkKeepsPending(events: set<Event>, db: Db, now: Db, was: Db, document: Document, link: Link)
    requires db.articles == now.articles && db.entities == now.entities
    requires forall x, e | x != link.article || e != link.entity ::
               LinkRows(db.links, x, e) == LinkRows(now.links, x, e)
    requires Direct(events, Article(link.article)) && Direct(events, Catalog(link.entity))
    requires Pending(events, db, was, document)
    ensures Pending(events, now, was, document)
  {
    forall a | a != link.article && SameArticle(was, db, a) ensures SameArticle(was, now, a) {
    }
    forall a | CoveredArticle(events, db, a) ensures CoveredArticle(events, now, a) {
      if !Direct(events, Article(a)) {
        var x :| Linked(db, a, x) && FansOutTo(events, x, a);
        assert Linked(now, a, x);
      }
    }
    if document.Catalog? && document.entity != link.entity {
      if Linked(now, link.article, document.entity) {
        assert CoveredArticle(events, now, link.article);
      } else if a :| Linked(db, a, document.entity) && CoveredArticle(events, db, a) {
        assert Linked(now, a, document.entity);
      }
    }
  }

  /** No row change lets a document go stale unnoticed. */
  lemma WriteKeepsPending(events: set<Event>, added: set<Event>, db: Db, was: Db, document: Document, w: Write)
    requires Wrote(Notices(db, w), added) && Pending(events, db, was, document)
    ensures Pending(events + added, After(db, w), was, document)
  {
    match w
    case SetArticle(a, row) => AfterSetArticle(events, added, db, was, document, a, row);
    case SetEntity(e, row) => AfterSetEntity(events, added, db, was, document, e, row);
    case SetLink(link, row) => AfterSetLink(events, added, db, was, document, link, row);
  }

  /** An UPDATE of a link row, which may move it: the old row goes and the new one comes. */
  function Relinked(db: Db, was: Option<Link>, now: Option<(Link, Row)>): Db {
    var left := if was.Some? then After(db, SetLink(was.value, None)) else db;
    if now.Some? then After(left, SetLink(now.value.0, Some(now.value.1))) else left
  }

  function LinkOf(now: Option<(Link, Row)>): Option<Link> {
    if now.Some? then Some(now.value.0) else None
  }

  function EndsOf(link: Option<Link>): set<Notice> {
    if link.None? then {}
    else {Notice(Article(link.value.article), false, None), Notice(Catalog(link.value.entity), false, None)}
  }

  lemma SplitNotices(few: set<Notice>, more: set<Notice>, added: set<Event>)
    returns (first: set<Event>, second: set<Event>)
    requires Wrote(few + more, added)
    ensures first + second == added && Wrote(few, first) && Wrote(more, second)
  {
    first := set ev | ev in added && ev.notice in few;
    second := set ev | ev in added && ev.notice in more;
  }

  /** One trigger call for a moved link is as good as one for its removal and one for its insertion. */
  lemma RelinkKeepsPending(events: set<Event>, added: set<Event>, db: Db, was: Db, document: Document,
                           old': Option<Link>, new': Option<(Link, Row)>)
    requires (old'.Some? ==> old'.value in db.links) && Wrote(EndsOf(old') + EndsOf(LinkOf(new')), added)
    requires Pending(events, db, was, document)
    ensures Pending(events + added, Relinked(db, old', new'), was, document)
  {
    var first, second := SplitNotices(EndsOf(old'), EndsOf(LinkOf(new')), added);
    var left := if old'.Some? then After(db, SetLink(old'.value, None)) else db;
    if old'.Some? {
      WriteKeepsPending(events, first, db, was, document, SetLink(old'.value, None));
    } else {
      PendingGrows(events, events + first, db, was, document);
    }
    if new'.Some? {
      WriteKeepsPending(events + first, second, left, was, document, SetLink(new'.value.0, Some(new'.value.1)));
    } else {
      PendingGrows(events + first, events + first + second, left, was, document);
    }
    assert events + first + second == events + added;
  }

  /* ---------- the indexer ---------- */

  /** The keyset position of one fanout page. */
  datatype Cursor = Cursor(entity: Entity, after: Option<Id>)
  datatype Page = Page(rows: set<Link>, ids: set<Id>, next: Option<Id>)

  /** A sync_batch transaction: what it has selected, rendered, imported and read so far. */
  datatype Work =
    | Idle
    | Busy(batch: set<Event>, built: map<Document, Db>, synced: set<Document>,
           destinations: map<Id, set<Entity>>, pages: map<Cursor, Page>)

  datatype State = State(db: Db, events: set<Event>, index: map<Document, Db>, work: Work)

  function BuiltFrom(s: State, document: Document): Db {
    if document in s.index then s.index[document] else EMPTY
  }

  /** Events get ever larger serial numbers. */
  predicate Later(added: set<Event>, events: set<Event>) {
    forall x, y | x in added && y in events :: y.id < x.id
  }

  ghost predicate Fans(batch: set<Event>, c: Cursor) {
    exists ev | ev in batch :: ev.notice.fanout && ev.notice.document == Catalog(c.entity) && ev.notice.after == c.after
  }

  predicate Follows(c: Cursor, link: Link) {
    link.entity == c.entity && Beyond(c.after, link.article)
  }

  /**
   SELECT article_id ... WHERE article_id > cursor ORDER BY article_id LIMIT size, which can end between rows of one
   article.
   */
  ghost predicate IsPage(db: Db, c: Cursor, size: nat, page: Page) {
    && |page.rows| <= size
    && (forall link | link in page.rows :: link in db.links && Follows(c, link) && link.article in page.ids)
    && (forall link | link in db.links && Follows(c, link) && link !in page.rows ::
          |page.rows| == size && forall x | x in page.rows :: x.article <= link.article)
    && (forall a | a in page.ids :: exists link :: link in page.rows && link.article == a)
    && (page.next.Some? <==> |page.rows| == size)
    && (page.next.Some? ==> page.next.value in page.ids && forall b | b in page.ids :: b <= page.next.value)
  }

  function Destinations(db: Db, a: Id): set<Entity> {
    set link | link in db.links && link.article == a :: link.entity
  }

  /** A document read by several statements mixes what each of them saw. */
  ghost predicate Mixes(before: Db, now: Db, mix: Db) {
    && (forall a :: SeenArticle(mix, a) == SeenArticle(before, a) || SeenArticle(mix, a) == SeenArticle(now, a))
    && (forall e :: SeenEntity(mix, e) == SeenEntity(before, e) || SeenEntity(mix, e) == SeenEntity(now, e))
    && (forall link: Link ::
         Get(mix.links, link) == Get(before.links, link) || Get(mix.links, link) == Get(now.links, link))
  }

  /** The events a batch leaves behind: its articles' destinations, its pages and their continuations. */
  ghost predicate LeftBehind(w: Work, n: Notice)
    requires w.Busy?
  {
    || (exists a, e :: a in w.destinations && e in w.destinations[a] && n == Notice(Catalog(e), false, None))
    || (exists c, a :: c in w.pages && a in w.pages[c].ids && n == Notice(Article(a), false, None))
    || (exists c :: c in w.pages && w.pages[c].next.Some? && n == Notice(Catalog(c.entity), true, w.pages[c].next))
  }

  /** One new fanout for each page that was full. */
  ghost predicate Continues(w: Work, continued: map<Cursor, Event>, added: set<Event>)
    requires w.Busy?
  {
    && (forall c :: c in continued <==> c in w.pages && w.pages[c].next.Some?)
    && (forall c | c in continued ::
         continued[c] in added && continued[c].notice == Notice(Catalog(c.entity), true, w.pages[c].next))
    && (forall ev | ev in added && ev.notice.fanout :: exists c :: c in continued && continued[c] == ev)
    && (forall c, d | c in continued && d in continued && continued[c] == continued[d] :: c == d)
  }

  datatype Step =
    | Writes(w: Write, added: set<Event>)
    | Begin(batch: set<Event>)
    | Build(document: Document)
    | Reread(document: Document, mix: Db)
    | Import(document: Document)
    | ReadDestinations(a: Id)
    | ReadPage(c: Cursor, page: Page)
    | Commit(added: set<Event>, continued: map<Cursor, Event>)
    | Crash

  ghost predicate Enabled(s: State, step: Step, size: nat) {
    match step
    case Writes(w, added) => Wrote(Notices(s.db, w), added) && Later(added, s.events)
    case Begin(batch) =>
      s.work.Idle? && {} < batch <= s.events && |batch| <= size && Later(s.events - batch, batch)
    case Build(document) => s.work.Busy? && Direct(s.work.batch, document) && document !in s.work.synced
    case Reread(document, mix) =>
      s.work.Busy? && document in s.work.built && document !in s.work.synced && Mixes(s.work.built[document], s.db, mix)
    case Import(document) => s.work.Busy? && document in s.work.built
    case ReadDestinations(a) => s.work.Busy? && Direct(s.work.batch, Article(a))
    case ReadPage(c, page) => s.work.Busy? && Fans(s.work.batch, c) && IsPage(s.db, c, size, page)
    case Commit(added, continued) =>
      && s.work.Busy?
      && (forall ev | ev in s.work.batch :: ev.notice.document in s.work.synced)
      && (forall a | Direct(s.work.batch, Article(a)) :: a in s.work.destinations)
      && (forall c | Fans(s.work.batch, c) :: c in s.work.pages)
      && (forall n | LeftBehind(s.work, n) :: exists ev | ev in added :: ev.notice == n)
      && (forall ev | ev in added :: LeftBehind(s.work, ev.notice))
      && Continues(s.work, continued, added)
      && Later(added, s.events)
    case Crash => s.work.Busy?
  }

  ghost function Next(s: State, step: Step, size: nat): State
    requires Enabled(s, step, size)
  {
    match step
    case Writes(w, added) => s.(db := After(s.db, w), events := s.events + added)
    case Begin(batch) => s.(work := Busy(batch, map[], {}, map[], map[]))
    case Build(document) => s.(work := s.work.(built := s.work.built[document := s.db]))
    case Reread(document, mix) => s.(work := s.work.(built := s.work.built[document := mix]))
    case Import(document) =>
      s.(index := s.index[document := s.work.built[document]], work := s.work.(synced := s.work.synced + {document}))
    case ReadDestinations(a) =>
      s.(work := s.work.(destinations := s.work.destinations[a := Destinations(s.db, a)]))
    case ReadPage(c, page) => s.(work := s.work.(pages := s.work.pages[c := page]))
    case Commit(added, _) => s.(events := s.events - s.work.batch + added, work := Idle)
    case Crash => s.(work := Idle)
  }

  /* ---------- the invariant ---------- */

  /** Every document is current or covered by an event that is still in the outbox. */
  ghost predicate Tracked(s: State) {
    forall document :: Pending(s.events, s.db, BuiltFrom(s, document), document)
  }

  /** What a batch has rendered is current, or covered by an event the batch will not acknowledge. */
  ghost predicate BuiltTracked(s: State)
    requires s.work.Busy?
  {
    forall document | document in s.work.built ::
      Pending(s.events - s.work.batch, s.db, s.work.built[document], document)
  }

  ghost predicate DestinationsTracked(s: State)
    requires s.work.Busy?
  {
    forall a, e | a in s.work.destinations && Linked(s.db, a, e) ::
      e in s.work.destinations[a] || Direct(s.events - s.work.batch, Catalog(e))
  }

  ghost predicate OnPage(page: Page, a: Id) {
    a in page.ids || (page.next.Some? && page.next.value < a)
  }

  ghost predicate PagesTracked(s: State)
    requires s.work.Busy?
  {
    forall c, a | c in s.work.pages && Linked(s.db, a, c.entity) && Beyond(c.after, a) ::
      OnPage(s.work.pages[c], a) || Direct(s.events - s.work.batch, Article(a))
  }

  ghost predicate ImportsMatch(s: State)
    requires s.work.Busy?
  {
    forall document | document in s.work.synced ::
      document in s.work.built && BuiltFrom(s, document) == s.work.built[document]
  }

  ghost predicate Inv(s: State) {
    && Tracked(s)
    && (s.work.Busy? ==>
         s.work.batch <= s.events && BuiltTracked(s) && DestinationsTracked(s) && PagesTracked(s) && ImportsMatch(s))
  }

  /* ---------- writers and the invariant ---------- */

  lemma LinksAfterWrite(s: State, w: Write, added: set<Event>, a: Id, e: Entity)
    requires Wrote(Notices(s.db, w), added)
    requires Linked(After(s.db, w), a, e) && !Linked(s.db, a, e)
    ensures Direct(added, Article(a)) && Direct(added, Catalog(e))
  {
    var link := RowOfLinked(After(s.db, w), a, e);
    if link in s.db.links {
      LinkedByRow(s.db, link);
    }
    assert w.SetLink? && w.link == link;
    WroteDirect(Notices(s.db, w), added, Notice(Article(a), false, None));
    WroteDirect(Notices(s.db, w), added, Notice(Catalog(e), false, None));
  }

  lemma DirectGrows(few: set<Event>, many: set<Event>, document: Document)
    requires few <= many && Direct(few, document)
    ensures Direct(many, document)
  {
  }

  lemma WritesKeepReads(s: State, w: Write, added: set<Event>, size: nat)
    requires Inv(s) && s.work.Busy? && Enabled(s, Writes(w, added), size)
    ensures DestinationsTracked(Next(s, Writes(w, added), size)) && PagesTracked(Next(s, Writes(w, added), size))
  {
    var t := Next(s, Writes(w, added), size);
    var rest, more := s.events - s.work.batch, t.events - t.work.batch;
    assert more == rest + added;
    forall a, e | Linked(t.db, a, e) && !Linked(s.db, a, e)
      ensures Direct(more, Article(a)) && Direct(more, Catalog(e))
    {
      LinksAfterWrite(s, w, added, a, e);
      DirectGrows(added, more, Article(a));
      DirectGrows(added, more, Catalog(e));
    }
    forall document | Direct(rest, document) ensures Direct(more, document) {
      DirectGrows(rest, more, document);
    }
  }

  lemma WritesKeepInv(s: State, w: Write, added: set<Event>, size: nat)
    requires Inv(s) && Enabled(s, Writes(w, added), size)
    ensures Inv(Next(s, Writes(w, added), size))
  {
    var t := Next(s, Writes(w, added), size);
    forall document ensures Pending(t.events, t.db, BuiltFrom(t, document), document) {
      WriteKeepsPending(s.events, added, s.db, BuiltFrom(s, document), document, w);
    }
    if s.work.Busy? {
      WritesKeepReads(s, w, added, size);
      assert t.events - t.work.batch == (s.events - s.work.batch) + added;
      forall document | document in t.work.built
        ensures Pending(t.events - t.work.batch, t.db, t.work.built[document], document)
      {
        WriteKeepsPending(s.events - s.work.batch, added, s.db, s.work.built[document], document, w);
      }
    }
  }

  /* ---------- the batch and the invariant ---------- */

  lemma MixedLinks(before: Db, now: Db, mix: Db, a: Id, e: Entity)
    requires Mixes(before, now, mix) && LinkRows(before.links, a, e) == LinkRows(now.links, a, e)
    ensures LinkRows(mix.links, a, e) == LinkRows(now.links, a, e)
  {
    var x, y, z := LinkRows(before.links, a, e), LinkRows(now.links, a, e), LinkRows(mix.links, a, e);
    forall n: nat ensures Get(z, n) == Get(y, n) {
      RowAt(before, a, e, n);
      RowAt(now, a, e, n);
      RowAt(mix, a, e, n);
    }
    assert forall n: nat :: (n in z <==> n in y) && (n in z ==> z[n] == y[n]) by {
      forall n: nat ensures (n in z <==> n in y) && (n in z ==> z[n] == y[n]) {
        assert Get(z, n) == Get(y, n);
      }
    }
  }

  lemma RowAt(db: Db, a: Id, e: Entity, n: nat)
    ensures Get(LinkRows(db.links, a, e), n) == Get(db.links, Link(a, e, n))
  {
    if Link(a, e, n) in db.links {
      assert n in LinkRows(db.links, a, e);
    }
  }

  lemma MixKeepsPending(events: set<Event>, before: Db, now: Db, mix: Db, document: Document)
    requires Mixes(before, now, mix) && Pending(events, now, before, document)
    ensures Pending(events, now, mix, document)
  {
    forall a, e | LinkRows(before.links, a, e) == LinkRows(now.links, a, e)
      ensures LinkRows(mix.links, a, e) == LinkRows(now.links, a, e)
    {
      MixedLinks(before, now, mix, a, e);
    }
    forall a | SameArticle(before, now, a) ensures SameArticle(mix, now, a) {
    }
  }

  /** A page that ends between rows of one article still holds that article. */
  lemma PageHasArticle(db: Db, c: Cursor, size: nat, page: Page, a: Id)
    requires IsPage(db, c, size, page) && Linked(db, a, c.entity) && Beyond(c.after, a)
    ensures OnPage(page, a)
  {
    var link := RowOfLinked(db, a, c.entity);
    assert Follows(c, link);
    if link !in page.rows && a !in page.ids {
      var last :| last in page.rows && last.article == page.next.value;
    }
  }

  lemma ReadsKeepInv(s: State, step: Step, size: nat)
    requires Inv(s) && Enabled(s, step, size)
    requires step.Build? || step.Reread? || step.ReadDestinations? || step.ReadPage?
    ensures Inv(Next(s, step, size))
  {
    var t := Next(s, step, size);
    assert forall document :: BuiltFrom(t, document) == BuiltFrom(s, document);
    if step.Reread? {
      MixKeepsPending(s.events - s.work.batch, s.work.built[step.document], s.db, step.mix, step.document);
    } else if step.ReadPage? {
      forall a | Linked(s.db, a, step.c.entity) && Beyond(step.c.after, a) ensures OnPage(step.page, a) {
        PageHasArticle(s.db, step.c, size, step.page, a);
      }
    } else if step.ReadDestinations? {
      forall e | Linked(s.db, step.a, e) ensures e in Destinations(s.db, step.a) {
        var link := RowOfLinked(s.db, step.a, e);
      }
    }
  }

  lemma ImportKeepsInv(s: State, document: Document, size: nat)
    requires Inv(s) && Enabled(s, Import(document), size)
    ensures Inv(Next(s, Import(document), size))
  {
    var t := Next(s, Import(document), size);
    PendingGrows(s.events - s.work.batch, s.events, s.db, s.work.built[document], document);
    forall d ensures Pending(t.events, t.db, BuiltFrom(t, d), d) {
      assert d != document ==> BuiltFrom(t, d) == BuiltFrom(s, d);
    }
  }

  lemma CommitCoversArticle(s: State, added: set<Event>, continued: map<Cursor, Event>, size: nat, a: Id)
    requires Inv(s) && Enabled(s, Commit(added, continued), size)
    requires CoveredArticle(s.events, s.db, a) && !Direct(s.work.batch, Article(a))
    ensures CoveredArticle(s.events - s.work.batch + added, s.db, a)
  {
    var left := s.events - s.work.batch + added;
    if ev :| ev in s.events && ev.notice.document == Article(a) {
      assert ev in left;
    } else {
      var e :| Linked(s.db, a, e) && FansOutTo(s.events, e, a);
      var ev :| ev in s.events && ev.notice.document == Catalog(e) && ev.notice.fanout && Beyond(ev.notice.after, a);
      if ev !in s.work.batch {
        assert FansOutTo(left, e, a);
      } else {
        var c := Cursor(e, ev.notice.after);
        assert Fans(s.work.batch, c);
        PageCovers(s, added, continued, size, c, a);
      }
    }
  }

  lemma PageCovers(s: State, added: set<Event>, continued: map<Cursor, Event>, size: nat, c: Cursor, a: Id)
    requires Inv(s) && Enabled(s, Commit(added, continued), size) && c in s.work.pages
    requires Linked(s.db, a, c.entity) && Beyond(c.after, a)
    ensures CoveredArticle(s.events - s.work.batch + added, s.db, a)
  {
    var left := s.events - s.work.batch + added;
    var page := s.work.pages[c];
    if a in page.ids {
      assert LeftBehind(s.work, Notice(Article(a), false, None));
      var ev :| ev in added && ev.notice == Notice(Article(a), false, None);
      assert ev in left;
    } else if page.next.Some? && page.next.value < a {
      assert LeftBehind(s.work, Notice(Catalog(c.entity), true, page.next));
      var ev :| ev in added && ev.notice == Notice(Catalog(c.entity), true, page.next);
      assert ev in left;
      assert FansOutTo(left, c.entity, a);
    } else {
      DirectGrows(s.events - s.work.batch, left, Article(a));
    }
  }

  lemma DestinationCovers(s: State, added: set<Event>, continued: map<Cursor, Event>, size: nat, a: Id, e: Entity)
    requires Inv(s) && Enabled(s, Commit(added, continued), size)
    requires Linked(s.db, a, e) && Direct(s.work.batch, Article(a))
    ensures Direct(s.events - s.work.batch + added, Catalog(e))
  {
    if e in s.work.destinations[a] {
      assert LeftBehind(s.work, Notice(Catalog(e), false, None));
      var ev :| ev in added && ev.notice == Notice(Catalog(e), false, None);
      assert ev in s.events - s.work.batch + added;
    } else {
      DirectGrows(s.events - s.work.batch, s.events - s.work.batch + added, Catalog(e));
    }
  }

  lemma CommitCoversCatalog(s: State, added: set<Event>, continued: map<Cursor, Event>, size: nat, e: Entity)
    requires Inv(s) && Enabled(s, Commit(added, continued), size)
    requires Covered(s.events, s.db, Catalog(e)) && !Direct(s.work.batch, Catalog(e))
    ensures Covered(s.events - s.work.batch + added, s.db, Catalog(e))
  {
    var left := s.events - s.work.batch + added;
    if ev :| ev in s.events && ev.notice.document == Catalog(e) {
      assert ev in left;
    } else {
      var a :| Linked(s.db, a, e) && CoveredArticle(s.events, s.db, a);
      if !Direct(s.work.batch, Article(a)) {
        CommitCoversArticle(s, added, continued, size, a);
      } else {
        DestinationCovers(s, added, continued, size, a, e);
      }
    }
  }

  lemma CommitKeepsInv(s: State, added: set<Event>, continued: map<Cursor, Event>, size: nat)
    requires Inv(s) && Enabled(s, Commit(added, continued), size)
    ensures Inv(Next(s, Commit(added, continued), size))
  {
    var t := Next(s, Commit(added, continued), size);
    forall document ensures Pending(t.events, t.db, BuiltFrom(t, document), document) {
      assert BuiltFrom(t, document) == BuiltFrom(s, document);
      if Direct(s.work.batch, document) {
        assert document in s.work.synced;
        PendingGrows(s.events - s.work.batch, t.events, s.db, s.work.built[document], document);
      } else if Covered(s.events, s.db, document) {
        if document.Article? {
          CommitCoversArticle(s, added, continued, size, document.id);
        } else {
          CommitCoversCatalog(s, added, continued, size, document.entity);
        }
      }
    }
  }

  lemma StepKeepsInv(s: State, step: Step, size: nat)
    requires Inv(s) && Enabled(s, step, size)
    ensures Inv(Next(s, step, size))
  {
    match step
    case Writes(w, added) => WritesKeepInv(s, w, added, size);
    case Import(document) => ImportKeepsInv(s, document, size);
    case Commit(added, continued) => CommitKeepsInv(s, added, continued, size);
    case Begin(_) => assert forall document :: BuiltFrom(Next(s, step, size), document) == BuiltFrom(s, document);
    case Crash => assert forall document :: BuiltFrom(Next(s, step, size), document) == BuiltFrom(s, document);
    case _ => ReadsKeepInv(s, step, size);
  }

  /* ---------- whole runs ---------- */

  /** The state the migration leaves: an empty index and one event for every existing row. */
  ghost predicate Initial(s: State) {
    && s.work.Idle? && s.index == map[]
    && (forall a | a in s.db.articles :: Direct(s.events, Article(a)))
    && (forall e | e in s.db.entities :: Direct(s.events, Catalog(e)))
    && (forall link | link in s.db.links :: link.article in s.db.articles && link.entity in s.db.entities)
  }

  lemma InitialInv(s: State)
    requires Initial(s)
    ensures Inv(s)
  {
    forall document ensures Pending(s.events, s.db, EMPTY, document) {
      if document.Article? && document.id !in s.db.articles {
        assert forall e :: !Linked(s.db, document.id, e);
        assert SameArticle(EMPTY, s.db, document.id);
      } else if document.Catalog? && document.entity !in s.db.entities {
        assert forall a :: !Linked(s.db, a, document.entity);
        assert SameCatalog(EMPTY, s.db, document.entity);
      }
    }
  }

  ghost predicate Run(states: seq<State>, steps: seq<Step>, size: nat) {
    && |states| == |steps| + 1 && Initial(states[0])
    && forall i | 0 <= i < |steps| ::
         Enabled(states[i], steps[i], size) && states[i + 1] == Next(states[i], steps[i], size)
  }

  lemma {:induction false} RunKeepsInv(states: seq<State>, steps: seq<Step>, size: nat, i: nat)
    requires Run(states, steps, size) && i < |states|
    ensures Inv(states[i])
    decreases i
  {
    if i == 0 {
      InitialInv(states[0]);
    } else {
      RunKeepsInv(states, steps, size, i - 1);
      StepKeepsInv(states[i - 1], steps[i - 1], size);
    }
  }

  /** In every reachable state a document whose inputs moved on since its last build is covered. */
  lemma StaleDocumentsAreCovered(states: seq<State>, steps: seq<Step>, size: nat, i: nat, document: Document)
    requires Run(states, steps, size) && i < |states|
    ensures SameInputs(BuiltFrom(states[i], document), states[i].db, document)
            || Covered(states[i].events, states[i].db, document)
  {
    RunKeepsInv(states, steps, size, i);
    assert Pending(states[i].events, states[i].db, BuiltFrom(states[i], document), document);
  }

  /** An empty outbox means an index that agrees with the database on everything captured. */
  lemma EmptyOutboxMeansCurrent(states: seq<State>, steps: seq<Step>, size: nat, i: nat, document: Document)
    requires Run(states, steps, size) && i < |states| && states[i].events == {}
    ensures SameInputs(BuiltFrom(states[i], document), states[i].db, document)
  {
    StaleDocumentsAreCovered(states, steps, size, i, document);
  }

  /* ---------- columns that are read but not captured ---------- */

  /** An update of columns outside the captured list writes no event at all. */
  lemma UncapturedUpdateIsSilent(db: Db, a: Id, row: Row)
    requires a in db.articles
    ensures Notices(db, SetArticle(a, Some(row))) == {}
            <==> forall c | c in ARTICLE_COLUMNS :: Get(db.articles[a], c) == Get(row, c)
  {
    SeenAgrees(ARTICLE_COLUMNS, db.articles[a], row);
    var n := Notice(Article(a), false, None);
    assert Captured(ARTICLE_COLUMNS, Some(db.articles[a]), Some(row)) ==> n in Notices(db, SetArticle(a, Some(row)));
  }

  lemma SeenAgrees(columns: seq<string>, was: Row, now: Row)
    ensures Seen(columns, Some(was)) == Seen(columns, Some(now)) <==>
              forall c | c in columns :: Get(was, c) == Get(now, c)
  {
    var x, y := Seen(columns, Some(was)).value, Seen(columns, Some(now)).value;
    if forall c | c in columns :: Get(was, c) == Get(now, c) {
      forall c ensures (c in x <==> c in y) && (c in x ==> x[c] == y[c]) {
        if c in columns {
          assert Get(was, c) == Get(now, c);
        }
      }
      assert x == y;
    } else {
      var c :| c in columns && Get(was, c) != Get(now, c);
      assert (c in x <==> c in was) && (c in y <==> c in now);
    }
  }

  /* ---------- the triggers ---------- */

  class Outbox {
    var db: Db
    var events: set<Event>
    var nextId: nat

    ghost predicate Valid()
      reads this
    {
      forall ev | ev in events :: ev.id < nextId
    }

    /** The events written since a reference point are exactly these notices, with later numbers. */
    ghost predicate Appended(before: set<Event>, notices: set<Notice>)
      reads this
    {
      before <= events && Wrote(notices, events - before) && Later(events - before, before)
    }

    method Append(notice: Notice, ghost before: set<Event>, ghost notices: set<Notice>)
      requires Valid() && Appended(before, notices) && forall ev | ev in before :: ev.id < nextId
      modifies `events, `nextId
      ensures Valid() && Appended(before, notices + {notice}) && nextId == old(nextId) + 1
    {
      var ev := Event(nextId, notice);
      assert (events + {ev}) - before == (events - before) + {ev};
      events := events + {ev};
      nextId := nextId + 1;
      assert ev in events - before;
      forall n | n in notices + {notice} ensures exists x | x in events - before :: x.notice == n {
      }
    }

    /** The FOREACH over the captured columns, leaving at the first difference. */
    method Differs(was: Row, now: Row, columns: seq<string>) returns (changed: bool)
      ensures changed <==> Seen(columns, Some(was)) != Seen(columns, Some(now))
    {
      SeenAgrees(columns, was, now);
      changed := false;
      for i := 0 to |columns|
        invariant !changed && forall j | 0 <= j < i :: Get(was, columns[j]) == Get(now, columns[j])
      {
        if Get(was, columns[i]) != Get(now, columns[i]) {
          changed := true;
          break;
        }
      }
    }

    /** Whether the row trigger goes on to write events. */
    method Fires(was: Option<Row>, now: Option<Row>, columns: seq<string>) returns (fires: bool)
      ensures fires <==> Captured(columns, was, now)
    {
      if was.Some? && now.Some? {
        fires := Differs(was.value, now.value, columns);
      } else {
        fires := was != now;
      }
    }

    /** INSERT, UPDATE or DELETE of an article and devfeed_search_entity_changed for it. */
    method ChangeArticle(a: Id, row: Option<Row>)
      requires Valid()
      modifies this
      ensures Valid() && db == After(old(db), SetArticle(a, row))
      ensures Appended(old(events), Notices(old(db), SetArticle(a, row)))
    {
      ghost var before := events;
      var was := Get(db.articles, a);
      var rest := set link | link in db.links && link.article == a :: Notice(Catalog(link.entity), false, None);
      ghost var all := Notices(db, SetArticle(a, row));
      db := After(db, SetArticle(a, row));
      var fires := Fires(was, row, ARTICLE_COLUMNS);
      if fires {
        Append(Notice(Article(a), false, None), before, {});
        ghost var written := {} + {Notice(Article(a), false, None)};
        while rest != {}
          invariant Valid() && Appended(before, written) && written + rest == all
          invariant db == After(old(db), SetArticle(a, row)) && forall ev | ev in before :: ev.id < nextId
          decreases rest
        {
          var n :| n in rest;
          Append(n, before, written);
          written := written + {n};
          rest := rest - {n};
        }
        assert written == all;
      }
    }

    /** The same trigger on topics, sources and tags: one event that also fans out. */
    method ChangeEntity(e: Entity, row: Option<Row>)
      requires Valid()
      modifies this
      ensures Valid() && db == After(old(db), SetEntity(e, row))
      ensures Appended(old(events), Notices(old(db), SetEntity(e, row)))
    {
      ghost var before := events;
      var was := Get(db.entities, e);
      db := After(db, SetEntity(e, row));
      var fires := Fires(was, row, EntityColumns(e.kind));
      if fires {
        Append(Notice(Catalog(e), true, None), before, {});
      }
    }

    /** INSERT, UPDATE or DELETE of a link and devfeed_search_link_changed for it; an UPDATE may move the link. */
    method ChangeLink(was: Option<Link>, now: Option<(Link, Row)>)
      requires Valid() && (was.Some? ==> was.value in db.links)
      modifies this
      ensures Valid() && db == Relinked(old(db), was, now)
      ensures Appended(old(events), EndsOf(was) + EndsOf(LinkOf(now)))
    {
      ghost var before := events;
      db := Relinked(db, was, now);
      if was.Some? {
        AppendEnds(was.value, before, {});
      }
      if now.Some? {
        AppendEnds(now.value.0, before, EndsOf(was));
      }
    }

    /** The VALUES of the trigger: an event for the article and one for the other end. */
    method AppendEnds(link: Link, ghost before: set<Event>, ghost notices: set<Notice>)
      requires Valid() && Appended(before, notices) && forall ev | ev in before :: ev.id < nextId
      modifies `events, `nextId
      ensures Valid() && Appended(before, notices + EndsOf(Some(link))) && forall ev | ev in before :: ev.id < nextId
    {
      Append(Notice(Article(link.article), false, None), before, notices);
      Append(Notice(Catalog(link.entity), false, None), before, notices + {Notice(Article(link.article), false, None)});
      assert notices + {Notice(Article(link.article), false, None)} + {Notice(Catalog(link.entity), false, None)}
          == notices + EndsOf(Some(link));
    }
  }
}
