/**
 The search outbox empties once writers stop: every acknowledged batch leaves less behind, although fanouts leave
 pages of article events and articles leave events for everything they are linked to
 (packages/core/src/search_index.py:164-224).
 */
module SearchDrain {
  import opened Options
  import opened SearchOutbox
  import opened Sums

  /* ---------- what is left to do ---------- */

  /** The link rows a fanout has not paged yet. */
  function Ahead(db: Db, c: Cursor): set<Link> {
    set link | link in db.links && Follows(c, link)
  }

  predicate IsFanout(ev: Event) {
    ev.notice.fanout && ev.notice.document.Catalog?
  }

  function CursorOf(ev: Event): Cursor
    requires IsFanout(ev)
  {
    Cursor(ev.notice.document.entity, ev.notice.after)
  }

  /** Each fanout with one more than the rows ahead of it. */
  function Fanouts(db: Db, events: set<Event>): (m: map<Event, int>)
    ensures forall ev | ev in m :: m[ev] >= 1
  {
    map ev | ev in events && IsFanout(ev) :: 1 + |Ahead(db, CursorOf(ev))|
  }

  function Articles(events: set<Event>): set<Event> {
    set ev | ev in events && ev.notice.document.Article?
  }

  lemma {:induction false} SumIsNatural(m: map<Event, int>)
    requires forall ev | ev in m :: m[ev] >= 1
    ensures Sum(m) >= |m|
    decreases |m|
  {
    if m != map[] {
      var ev :| ev in m;
      SumRemove(m, ev);
      SumIsNatural(m - {ev});
      assert |m - {ev}| == |m| - 1 by {
        assert (m - {ev}).Keys == m.Keys - {ev};
      }
    }
  }

  ghost function Paging(s: State): nat {
    SumIsNatural(Fanouts(s.db, s.events));
    Sum(Fanouts(s.db, s.events))
  }

  /** Less is left: fanouts have advanced, or else articles are done, or else events are. */
  ghost predicate Less(t: State, s: State) {
    || Paging(t) < Paging(s)
    || (Paging(t) == Paging(s) && |Articles(t.events)| < |Articles(s.events)|)
    || (Paging(t) == Paging(s) && |Articles(t.events)| == |Articles(s.events)| && |t.events| < |s.events|)
  }

  /* ---------- a batch that was begun after the last write ---------- */

  ghost predicate Undisturbed(s: State, size: nat) {
    s.work.Busy? ==>
      && s.work.batch != {} && s.work.batch <= s.events
      && (forall a | a in s.work.destinations :: Direct(s.work.batch, Article(a)))
      && (forall c | c in s.work.pages :: Fans(s.work.batch, c) && IsPage(s.db, c, size, s.work.pages[c]))
  }

  lemma QuietStep(s: State, step: Step, size: nat)
    requires Enabled(s, step, size) && !step.Writes? && Undisturbed(s, size)
    ensures Undisturbed(Next(s, step, size), size) && Next(s, step, size).db == s.db
    ensures !step.Commit? ==> Next(s, step, size).events == s.events
  {
  }

  /* ---------- one acknowledgement ---------- */

  /** A full page takes at least its own rows off what is ahead. */
  lemma PageAdvances(db: Db, c: Cursor, size: nat, page: Page)
    requires IsPage(db, c, size, page) && page.next.Some? && size > 0
    ensures |Ahead(db, Cursor(c.entity, page.next))| < |Ahead(db, c)|
  {
    var before, after := Ahead(db, c), Ahead(db, Cursor(c.entity, page.next));
    var row :| row in page.rows && row.article == page.next.value;
    assert row in before && row !in after;
    assert after <= before - {row} by {
      forall link | link in after ensures link in before && link != row {
        assert Beyond(c.after, row.article);
      }
    }
    Smaller(after, before - {row});
  }

  lemma Smaller<T>(few: set<T>, many: set<T>)
    requires few <= many
    ensures |few| <= |many|
  {
    assert many == few + (many - few);
  }

  /** New fanouts, matched with the acknowledged ones they continue, are worth less. */
  lemma {:induction false} ContinuedAreLess(continued: map<Cursor, Event>, made: map<Event, int>, done: map<Event, int>)
    requires forall ev | ev in made :: exists c :: c in continued && continued[c] == ev
    requires forall c, d | c in continued && d in continued && continued[c] == continued[d] :: c == d
    requires forall ev | ev in done :: done[ev] >= 1 && IsFanout(ev)
    requires forall c | c in continued :: continued[c] in made
               && exists b :: b in done && CursorOf(b) == c && made[continued[c]] < done[b]
    ensures Sum(made) + |continued| <= Sum(done)
    decreases |continued|
  {
    if continued == map[] {
      assert made == map[];
      SumIsNatural(done);
    } else {
      var c :| c in continued;
      var ev := continued[c];
      var b :| b in done && CursorOf(b) == c && made[ev] < done[b];
      var rest := continued - {c};
      assert rest.Keys == continued.Keys - {c};
      forall d | d in rest
        ensures rest[d] in made - {ev}
        ensures exists x :: x in done - {b} && CursorOf(x) == d && (made - {ev})[rest[d]] < (done - {b})[x]
      {
        var x :| x in done && CursorOf(x) == d && made[continued[d]] < done[x];
        assert x in done - {b};
      }
      forall x | x in made - {ev} ensures exists d :: d in rest && rest[d] == x {
        var d :| d in continued && continued[d] == x;
        assert d in rest;
      }
      ContinuedAreLess(rest, made - {ev}, done - {b});
      SumRemove(made, ev);
      SumRemove(done, b);
    }
  }

  lemma FanoutsSplit(db: Db, events: set<Event>, part: set<Event>)
    requires part <= events
    ensures Sum(Fanouts(db, events)) == Sum(Fanouts(db, part)) + Sum(Fanouts(db, events - part))
  {
    SumSplit(Fanouts(db, events), Fanouts(db, part), Fanouts(db, events - part));
  }

  lemma CommitParts(s: State, added: set<Event>, continued: map<Cursor, Event>, size: nat)
    requires Enabled(s, Commit(added, continued), size) && s.work.batch <= s.events
    ensures var t := Next(s, Commit(added, continued), size);
            && added <= t.events && t.events - added == s.events - s.work.batch && t.db == s.db
  {
    forall ev | ev in added ensures ev !in s.events {
    }
  }

  lemma MadeFanouts(s: State, added: set<Event>, continued: map<Cursor, Event>, size: nat)
    requires Enabled(s, Commit(added, continued), size) && Undisturbed(s, size) && size > 0
    ensures Sum(Fanouts(s.db, added)) + |continued| <= Sum(Fanouts(s.db, s.work.batch))
  {
    var made, done := Fanouts(s.db, added), Fanouts(s.db, s.work.batch);
    forall c | c in continued
      ensures continued[c] in made && exists b :: b in done && CursorOf(b) == c && made[continued[c]] < done[b]
    {
      PageAdvances(s.db, c, size, s.work.pages[c]);
      var b :| b in s.work.batch && b.notice.fanout && b.notice.document == Catalog(c.entity)
        && b.notice.after == c.after;
      assert b in done && CursorOf(b) == c;
      assert CursorOf(continued[c]) == Cursor(c.entity, s.work.pages[c].next);
    }
    ContinuedAreLess(continued, made, done);
  }

  lemma PagingParts(s: State, added: set<Event>, continued: map<Cursor, Event>, size: nat)
    requires Enabled(s, Commit(added, continued), size) && s.work.batch <= s.events
    ensures Paging(Next(s, Commit(added, continued), size)) - Sum(Fanouts(s.db, added))
              == Paging(s) - Sum(Fanouts(s.db, s.work.batch))
  {
    var t := Next(s, Commit(added, continued), size);
    CommitParts(s, added, continued, size);
    FanoutsSplit(s.db, s.events, s.work.batch);
    FanoutsSplit(s.db, t.events, added);
  }

  /** Without continuations there is no new fanout at all. */
  lemma NothingMade(db: Db, added: set<Event>, continued: map<Cursor, Event>, w: Work)
    requires w.Busy? && Continues(w, continued, added) && continued == map[]
    ensures Fanouts(db, added) == map[]
  {
  }

  lemma DoneIsPositive(db: Db, batch: set<Event>, ev: Event)
    requires ev in batch && IsFanout(ev)
    ensures Sum(Fanouts(db, batch)) >= 1
  {
    var done := Fanouts(db, batch);
    SumIsNatural(done);
    assert ev in done.Keys && |done| == |done.Keys| >= |{ev}| by {
      Smaller({ev}, done.Keys);
    }
  }

  lemma MadeIsLess(s: State, added: set<Event>, continued: map<Cursor, Event>, size: nat)
    requires Enabled(s, Commit(added, continued), size) && Undisturbed(s, size) && size > 0
    ensures Sum(Fanouts(s.db, added)) <= Sum(Fanouts(s.db, s.work.batch))
    ensures (exists ev :: ev in s.work.batch && IsFanout(ev)) ==>
              Sum(Fanouts(s.db, added)) < Sum(Fanouts(s.db, s.work.batch))
  {
    MadeFanouts(s, added, continued, size);
    if ev :| ev in s.work.batch && IsFanout(ev) {
      DoneIsPositive(s.db, s.work.batch, ev);
      if continued == map[] {
        NothingMade(s.db, added, continued, s.work);
      }
    }
  }

  lemma PagingFalls(s: State, added: set<Event>, continued: map<Cursor, Event>, size: nat)
    requires Enabled(s, Commit(added, continued), size) && Undisturbed(s, size) && size > 0
    ensures var t := Next(s, Commit(added, continued), size);
            Paging(t) <= Paging(s) && ((exists ev :: ev in s.work.batch && IsFanout(ev)) ==> Paging(t) < Paging(s))
  {
    PagingParts(s, added, continued, size);
    MadeIsLess(s, added, continued, size);
  }

  /** Without a fanout in it, a batch leaves only catalogue events, and those only if it held articles. */
  lemma PlainBatch(s: State, added: set<Event>, continued: map<Cursor, Event>, size: nat, ev: Event)
    requires Enabled(s, Commit(added, continued), size) && Undisturbed(s, size) && ev in added
    requires forall x | x in s.work.batch :: !IsFanout(x)
    ensures ev.notice.document.Catalog? && exists a :: Direct(s.work.batch, Article(a))
  {
    forall c ensures !Fans(s.work.batch, c) {
    }
    assert LeftBehind(s.work, ev.notice);
  }

  lemma PlainBatchLeavesLess(s: State, added: set<Event>, continued: map<Cursor, Event>, size: nat)
    requires Enabled(s, Commit(added, continued), size) && Undisturbed(s, size)
    requires forall x | x in s.work.batch :: !IsFanout(x)
    ensures var left := s.events - s.work.batch + added;
            |Articles(left)| < |Articles(s.events)| || (|Articles(left)| == |Articles(s.events)| && |left| < |s.events|)
  {
    var left := s.events - s.work.batch + added;
    forall ev | ev in added ensures ev.notice.document.Catalog? && exists a :: Direct(s.work.batch, Article(a)) {
      PlainBatch(s, added, continued, size, ev);
    }
    CommitParts(s, added, continued, size);
    assert Articles(left) == Articles(s.events) - Articles(s.work.batch);
    if ev :| ev in s.work.batch && ev.notice.document.Article? {
      FewerWithout(Articles(s.events), Articles(s.work.batch), ev);
    } else {
      assert Articles(s.work.batch) == {};
      assert !exists a :: Direct(s.work.batch, Article(a));
      assert added == {};
      var ev :| ev in s.work.batch;
      FewerWithout(s.events, s.work.batch, ev);
    }
  }

  lemma CommitLeavesLess(s: State, added: set<Event>, continued: map<Cursor, Event>, size: nat)
    requires Enabled(s, Commit(added, continued), size) && Undisturbed(s, size) && size > 0
    ensures Less(Next(s, Commit(added, continued), size), s)
  {
    PagingFalls(s, added, continued, size);
    if forall x | x in s.work.batch :: !IsFanout(x) {
      PlainBatchLeavesLess(s, added, continued, size);
    }
  }

  lemma FewerWithout(events: set<Event>, part: set<Event>, ev: Event)
    requires ev in part && part <= events
    ensures |events - part| < |events|
  {
    Smaller(events - part, events - {ev});
  }

  /* ---------- endless runs without writers ---------- */

  /** Steps of the indexer, or nothing. */
  ghost predicate Quiet(run: nat -> State, steps: nat -> Option<Step>, size: nat) {
    forall i: nat :: QuietAt(run, steps, size, i)
  }

  ghost predicate QuietAt(run: nat -> State, steps: nat -> Option<Step>, size: nat, i: nat) {
    match steps(i)
    case None => run(i + 1) == run(i)
    case Some(step) => !step.Writes? && Enabled(run(i), step, size) && run(i + 1) == Next(run(i), step, size)
  }

  predicate CommitsAt(steps: nat -> Option<Step>, i: nat) {
    steps(i).Some? && steps(i).value.Commit?
  }

  /** While there are events, some batch will be acknowledged. */
  ghost predicate KeepsCommitting(run: nat -> State, steps: nat -> Option<Step>) {
    forall i: nat | run(i).events != {} :: exists j: nat :: i <= j && CommitsAt(steps, j)
  }

  lemma {:induction false} FirstCommit(steps: nat -> Option<Step>, i: nat, j: nat) returns (k: nat)
    requires i <= j && CommitsAt(steps, j)
    ensures i <= k <= j && CommitsAt(steps, k) && forall m | i <= m < k :: !CommitsAt(steps, m)
    decreases j - i
  {
    if CommitsAt(steps, i) {
      k := i;
    } else {
      k := FirstCommit(steps, i + 1, j);
    }
  }

  lemma {:induction false} SameUntil(run: nat -> State, steps: nat -> Option<Step>, size: nat, i: nat, j: nat)
    requires Quiet(run, steps, size) && i <= j && Undisturbed(run(i), size)
    requires forall m | i <= m < j :: !CommitsAt(steps, m)
    ensures Undisturbed(run(j), size) && run(j).events == run(i).events && run(j).db == run(i).db
    decreases j
  {
    if i < j {
      SameUntil(run, steps, size, i, j - 1);
      assert QuietAt(run, steps, size, j - 1) && !CommitsAt(steps, j - 1);
      if steps(j - 1).Some? {
        QuietStep(run(j - 1), steps(j - 1).value, size);
      }
    }
  }

  lemma SameMeasure(s: State, t: State)
    requires s.events == t.events && s.db == t.db
    ensures Paging(s) == Paging(t)
  {
  }

  lemma CommitAfter(run: nat -> State, steps: nat -> Option<Step>, size: nat, i: nat, j: nat)
    requires Quiet(run, steps, size) && i <= j && Undisturbed(run(i), size) && size > 0
    requires CommitsAt(steps, j) && forall m | i <= m < j :: !CommitsAt(steps, m)
    ensures Undisturbed(run(j + 1), size) && Less(run(j + 1), run(i))
  {
    SameUntil(run, steps, size, i, j);
    assert QuietAt(run, steps, size, j);
    var step := steps(j).value;
    CommitLeavesLess(run(j), step.added, step.continued, size);
    SameMeasure(run(i), run(j));
    QuietStep(run(j), step, size);
  }

  lemma {:induction false} Drains(run: nat -> State, steps: nat -> Option<Step>, size: nat, i: nat) returns (k: nat)
    requires Quiet(run, steps, size) && KeepsCommitting(run, steps) && size > 0 && Undisturbed(run(i), size)
    ensures i <= k && run(k).events == {}
    decreases Paging(run(i)), |Articles(run(i).events)|, |run(i).events|
  {
    if run(i).events == {} {
      k := i;
    } else {
      var j: nat :| i <= j && CommitsAt(steps, j);
      j := FirstCommit(steps, i, j);
      CommitAfter(run, steps, size, i, j);
      k := Drains(run, steps, size, j + 1);
    }
  }

  lemma {:induction false} InvAlong(run: nat -> State, steps: nat -> Option<Step>, size: nat, k: nat)
    requires Quiet(run, steps, size) && Inv(run(0))
    ensures Inv(run(k)) && run(k).db == run(0).db
  {
    if k > 0 {
      InvAlong(run, steps, size, k - 1);
      assert QuietAt(run, steps, size, k - 1);
      if steps(k - 1).Some? {
        StepKeepsInv(run(k - 1), steps(k - 1).value, size);
      }
    }
  }

  /**
   Once writers stop, the outbox is empty after finitely many batches, and then every document agrees with the
   database on everything captured.
   */
  lemma QuietOutboxEmpties(run: nat -> State, steps: nat -> Option<Step>, size: nat) returns (k: nat)
    requires Quiet(run, steps, size) && KeepsCommitting(run, steps) && size > 0 && Inv(run(0))
    ensures run(k).events == {} && run(k).db == run(0).db
    ensures forall document :: SameInputs(BuiltFrom(run(k), document), run(k).db, document)
  {
    if run(0).events == {} {
      k := 0;
    } else {
      var j: nat :| 0 <= j && CommitsAt(steps, j);
      assert QuietAt(run, steps, size, j);
      assert run(j + 1).work.Idle?;
      k := Drains(run, steps, size, j + 1);
    }
    InvAlong(run, steps, size, k);
    forall document ensures SameInputs(BuiltFrom(run(k), document), run(k).db, document) {
      assert Pending(run(k).events, run(k).db, BuiltFrom(run(k), document), document);
    }
  }
}
